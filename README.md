# AI Studio project: cost, CO₂ and recommendation dashboard, and local assistant

The repository has two programs.

**The model-comparison dashboard (`app.py`).** It reads a summary table of
language-model variants. Each row has `model_name`, `roi_tokens_per_dollar`
and `co2_g`. From these the dashboard derives:

- the cost and the grams of CO₂ per million tokens, and a strength tier from a
  fixed name table;
- a projection of cost and CO₂ for one model over a monthly, quarterly or
  yearly token volume;
- the savings of switching from one model to another;
- a recommendation: each metric is divided by its column maximum, the results
  are weighted by three sliders (cost, carbon, strength), and the top row of a
  descending sort on the score wins.

The overview tab ranks the same table in descending order of a chosen metric.

**The local assistant (`local-assistant/chat_app.py`).** It loads the
project's text files and CSV summaries into two strings:

- a *full project context*, with every file's heading and truncated text;
- a *final presentation context*, which holds only the files whose name
  mentions "final presentation".

It shows a 1500-character preview of the full context. It keeps a chat
history, and each turn sends a locally served model the system prompt
followed by the whole history, with roles normalised.

The Dafny project has four modules:

- `Ranking` (`ranking.dfy`): the descending sort and its top row.
- `Dashboard` (`dashboard.dfy`): the dashboard formulas as functions over a
  sequence of `ModelRecord`s, plus the class `SummaryFrame`. That class holds
  the table whose derived columns the script adds in place.
- `Strings` (`strings.dfy`): the Python string operations used: `endswith`,
  `in`, `lower` and `join`.
- `LocalAssistant` (`assistant.dfy`): `truncate`, the file filters, the
  context assembly, the preview, the system prompt and the model-message
  loop. It also has the class `ChatSession`, whose history is appended in
  place.

Choices made in the model:

- Floats are modelled as `real`.
- The script checks none of its inputs. A non-empty table, positive
  `roi_tokens_per_dollar` and positive `co2_g` are therefore stated as
  preconditions (`ValidDataset`, `ValidRecord`).
- The two loops that append to lists (`BuildProjectContexts`,
  `BuildModelMessages`) are methods. `BuildProjectContexts` is proved equal
  to `FullContext` and `FinalPresentationContext`, which are defined by
  recursion on prefixes of the file lists. The postconditions of
  `BuildModelMessages` give every entry of the message list directly.

The recommendation is specified only as *a* row with the maximal score. The
table sort at app.py:269 is the default pandas sort, which is not stable, so
pandas does not fix which of several tied rows comes first.

## Model

| member | source | states |
|---|---|---|
| Ranking.Insert | app.py:141 | inserting into a descending sequence keeps it descending, adds exactly the one row (multiset), and puts either the new row or the old head in front |
| Ranking.SortDescending | app.py:269 | the sort used by the overview and the recommendation returns a permutation (same multiset, same length) of its rows in descending order of value |
| Ranking.FirstIsMaximum | app.py:269 | in a descending sequence no row of the sequence has a larger value than the first |
| Ranking.SortedTopIsMaximum | app.py:269 | the first row after sorting (index, value) pairs is a row of the input whose value no other row exceeds |
| Ranking.TopIndex | app.py:269 | `.iloc[0]` of the descending sort is a valid row index whose value is a maximum of the column |
| Dashboard.UsdPerMillion | app.py:84-86 | the cost per million tokens is positive and times roi gives exactly 1,000,000 (it is TOKENS / roi) |
| Dashboard.Co2PerMillion | app.py:87 | the grams of CO₂ per million tokens are positive and times roi give co2_g × 1,000,000 |
| Dashboard.Co2RateIsCostRateTimesCo2 | app.py:86-87 | the CO₂ rate equals co2_g times the dollar rate, tying the two derived columns together |
| Dashboard.PowerScore | app.py:89-97 | a name in the table gets its listed tier, any other name exactly 1 (the `fillna(1)` default), so every tier is in 1..3 |
| Dashboard.PeriodFactor | app.py:176-181 | the factor is 1 exactly for "Monthly", 3 exactly for "Quarterly" and 12 exactly for every other choice |
| Dashboard.Multiplier | app.py:183-184 | the multiplier is non-negative and times 1,000,000 gives monthly_tokens × factor |
| Dashboard.Project | app.py:194-195 | the estimated cost and CO₂ are non-negative, cost × roi equals the tokens bought, and kilograms × 1000 equal cost × co2_g |
| Dashboard.ProjectAdditive | app.py:183-195 | cost and CO₂ estimates are additive in the monthly token volume (linear in monthly_tokens) |
| Dashboard.ProjectMonotone | app.py:183-195 | more monthly tokens never give a lower cost or lower CO₂ estimate |
| Dashboard.Compare | app.py:217-224 | money and CO₂ saved are the differences of the two projections; the percentage times the base cost is the money saved when the base cost is positive and 0 otherwise; the percentage is at most 1 and positive exactly when money is saved |
| Dashboard.SavedShare | app.py:219-220 | for non-negative costs the zero-guarded percentage times a positive base cost is the money saved; it is at most 1, and positive exactly when money is saved |
| Dashboard.CompareWithItself | app.py:217-224 | comparing a model with itself saves no money, no CO₂ and 0 percent |
| Dashboard.CompareSwapped | app.py:217-224 | swapping the base and the alternative negates the money and the CO₂ saved |
| Dashboard.PercentSavedFromRates | app.py:217-220 | for a positive volume the percentage saved is 1 - base.roi / alt.roi, whatever the volume |
| Dashboard.ShareFromRates | app.py:217-220 | two costs that buy the same tokens at rates br and ar give a saved share of exactly 1 - br / ar |
| Dashboard.MaxOf | app.py:259-261 | the column maximum `.max()` is a value of the column and no value exceeds it |
| Dashboard.Normalize | app.py:259-261 | dividing a positive column by its maximum keeps its length and puts every value in (0, 1] |
| Dashboard.NormalizeTop | app.py:259-261 | a row normalises to exactly 1 if and only if it holds the column maximum, and some row does |
| Dashboard.NormalizeMonotone | app.py:259-261 | normalisation keeps the order of any two rows, in both directions |
| Dashboard.CostColumn | app.py:86 | the `usd_per_million_tokens` column has one positive entry per row |
| Dashboard.Co2Column | app.py:87 | the `co2_g_per_million_tokens` column has one positive entry per row |
| Dashboard.PowerColumn | app.py:97 | the `power_score` column has one entry per row, each in [1, 3] |
| Dashboard.Scores | app.py:263-267 | the score column has one entry per row |
| Dashboard.RowScore | app.py:263-267 | the score formula of one row: cost_pref × (1 - cost_norm) + carbon_pref × (1 - co2_norm) + perf_pref × strength_norm; its meaning is stated by RowScoreBounds, RowScoreCostShift and the single-slider lemmas |
| Dashboard.RowScoreBounds | app.py:253-267 | a score made from normalised values with slider weights in [0, 1] lies in [0, cost_pref + carbon_pref + perf_pref] |
| Dashboard.ScoresBounded | app.py:253-267 | every row's score lies in [0, cost_pref + carbon_pref + perf_pref] |
| Dashboard.RecommendedIndex | app.py:269 | the recommended row is a row of the table whose score is at least every row's score |
| Dashboard.CostOnlyRecommendsCheapest | app.py:259-269 | with only the cost slider at 1, the recommended model has the lowest cost per million tokens |
| Dashboard.CarbonOnlyRecommendsCleanest | app.py:259-269 | with only the carbon slider at 1, the recommended model has the lowest CO₂ per million tokens |
| Dashboard.StrengthOnlyRecommendsStrongest | app.py:259-269 | with only the strength slider at 1, the recommended model has the highest strength tier |
| Dashboard.RowScoreCostShift | app.py:263-267 | raising only the cost weight changes the score gap of two rows by the weight change times their normalised cost gap |
| Dashboard.CostWeightGap | app.py:263-267 | for any normalised values, raising only the cost weight never shrinks the score lead of a row with the lower normalised cost |
| Dashboard.CostWeightFavoursCheaper | app.py:259-267 | raising the cost priority, all else fixed, never shrinks the score lead of a cheaper row over a dearer one |
| Dashboard.MetricValue | app.py:125-129 | the value of one of the three selectable metrics for a row; the overview ranks by it (OverviewBars) |
| Dashboard.MetricRows | app.py:125-129 | the (model_name, metric) rows, one per table row |
| Dashboard.OverviewBars | app.py:141 | the overview bars are the table's (name, metric) rows, each exactly once, in descending order of the metric, the first one a maximum |
| Dashboard.FindRow | app.py:192 | `df[df["model_name"] == name].iloc[0]` is the first row carrying that name |
| Dashboard.SummaryFrame.Load | app.py:82 | the loaded table holds the records and no derived columns yet |
| Dashboard.SummaryFrame.AddRateColumns | app.py:86-87 | adds the two rate columns in place and changes nothing else |
| Dashboard.SummaryFrame.AddPowerColumn | app.py:97 | adds the power_score column in place and changes nothing else |
| Dashboard.SummaryFrame.AddScoreColumn | app.py:259-267 | adds the score column in place, equal to the score of every row, and changes nothing else |
| Dashboard.SummaryFrame.Best | app.py:269 | the best row is a row of the table whose score is at least every row's score |
| LocalAssistant.Truncate | local-assistant/chat_app.py:334-337 | a text that fits is returned unchanged; a longer one becomes exactly its first max_chars characters followed by "\n\n[TRUNCATED]" (length max_chars + 13) |
| LocalAssistant.TruncateIdempotent | local-assistant/chat_app.py:334-337 | truncating twice with the same limit gives the same as truncating once |
| Strings.EndsWith | local-assistant/chat_app.py:352 | `str.endswith`: the last characters of the string are the suffix |
| Strings.Contains | local-assistant/chat_app.py:425 | the `in` test on strings: the substring starts at some position (ContainsMiddle shows every glued piece is found) |
| Strings.Lower | local-assistant/chat_app.py:424 | `str.lower` on ASCII letters; the result has the same length |
| Strings.Join | local-assistant/chat_app.py:446 | `sep.join(parts)`: the parts in order with the separator between neighbours (JoinStartsWithFirst shows it starts with the first part) |
| LocalAssistant.IsTextFile | local-assistant/chat_app.py:352 | the text loader's filter: the name ends in .txt or .py |
| LocalAssistant.IsCsvFile | local-assistant/chat_app.py:380 | the CSV loader's filter: the name ends in .csv |
| LocalAssistant.TextAndCsvDisjoint | local-assistant/chat_app.py:352 | no file name passes both the text filter (.txt or .py) and the CSV filter (.csv) |
| LocalAssistant.ExtensionsSelect | local-assistant/chat_app.py:380 | .txt and .py names are text files and .csv names are datasets; the test is case-sensitive, so .TXT and .CSV are neither |
| LocalAssistant.Heading | local-assistant/chat_app.py:428 | the "### name\n" heading of a file |
| LocalAssistant.Entry | local-assistant/chat_app.py:428-430 | the three parts one file appends: heading, truncated text, newline |
| LocalAssistant.Sections | local-assistant/chat_app.py:423-438 | the parts of every file in input order, defined on prefixes; its layout is stated by SectionsLayout |
| LocalAssistant.Block | local-assistant/chat_app.py:421-438 | one group of files: nothing when the group is empty, else its header followed by the sections of its files; its layout is stated by BlockLayout |
| LocalAssistant.ContextParts | local-assistant/chat_app.py:417-438 | the whole `parts` list: the text block, then the dataset block; its layout is stated by ContextPartsLayout |
| LocalAssistant.BlockLayout | local-assistant/chat_app.py:421-438 | a non-empty group opens with its header and holds, in input order, each file's heading and its text truncated to the group's limit; an empty group adds nothing |
| LocalAssistant.FullContext | local-assistant/chat_app.py:440-446 | the "No files found" message for no parts, else the parts joined by newlines; stated by FullContextNoFiles and met by BuildProjectContexts |
| LocalAssistant.SectionsLayout | local-assistant/chat_app.py:423-438 | every file contributes "### name\n", its text truncated to the limit, and "\n", in input order |
| LocalAssistant.ContextPartsLayout | local-assistant/chat_app.py:417-438 | the parts start with the text header exactly when there are text documents; the CSV header follows the text block when there are summaries; every text document's heading and text truncated to 4000, and every summary's heading and text truncated to 2000, sit at their positions in input order |
| LocalAssistant.FullContextNoFiles | local-assistant/chat_app.py:440-446 | the full context is the "No files found" message if and only if there are no text documents and no CSV summaries |
| LocalAssistant.IsFinalPresentation | local-assistant/chat_app.py:424-425 | the lower-cased name contains "final presentation" |
| LocalAssistant.FinalChunk | local-assistant/chat_app.py:426 | the untruncated "### name\ncontent\n" chunk of a matching file |
| LocalAssistant.FinalChunks | local-assistant/chat_app.py:423-426 | the chunks of the matching files in input order, defined on prefixes; stated by FinalChunksEmpty |
| LocalAssistant.FinalPresentationContext | local-assistant/chat_app.py:448-454 | "" without chunks, else the chunks joined by newlines and truncated to 8000; stated by FinalPresentationEmpty and met by BuildProjectContexts |
| LocalAssistant.FinalChunksEmpty | local-assistant/chat_app.py:423-426 | there are no final-presentation chunks exactly when no lower-cased name contains "final presentation" |
| LocalAssistant.FinalPresentationEmpty | local-assistant/chat_app.py:448-454 | the final-presentation context is "" exactly when no lower-cased name contains "final presentation", and it never exceeds 8000 characters plus the marker |
| LocalAssistant.BuildProjectContexts | local-assistant/chat_app.py:408-456 | the loops appending to `parts` and `final_presentation_chunks` return the full context and the final-presentation context defined by the specification functions above |
| LocalAssistant.Preview | local-assistant/chat_app.py:491-493 | the preview is the whole context when it has at most 1500 characters, and otherwise exactly the first 1500 followed by the "...[truncated preview]..." suffix |
| LocalAssistant.PreviewMatchesTruncate | local-assistant/chat_app.py:491-493 | the preview keeps the same head as `truncate` with limit 1500 and differs only in the marker that follows |
| LocalAssistant.PrimarySource | local-assistant/chat_app.py:581 | the final-presentation context, or the "No final presentation file was found." note when it is empty |
| LocalAssistant.PromptTail | local-assistant/chat_app.py:582-584 | the part of the prompt after the primary source contains the project context |
| LocalAssistant.SystemPrompt | local-assistant/chat_app.py:562-585 | the prompt starts with the fixed instructions followed by the final-presentation context, or the "No final presentation file was found." note when that context is empty; the rest of the prompt is PromptTail, so the project context appears after both; the prompt contains both contexts |
| LocalAssistant.NormalizeRole | local-assistant/chat_app.py:591-593 | the role sent is always user, assistant or system, and equals the original role exactly when that role is one of them |
| LocalAssistant.BuildModelMessages | local-assistant/chat_app.py:587-594 | the message list has length 1 + history, starts with the system prompt, and keeps every history message's content and order, with its role normalised |
| LocalAssistant.UserTurnSent | local-assistant/chat_app.py:557-594 | once the input is appended to the history, the loop sends every earlier message with its role normalised and content kept, and the input last as a user message |
| LocalAssistant.ChatSession.constructor | local-assistant/chat_app.py:505-518 | a new session's history is the assistant's greeting alone |
| LocalAssistant.ChatSession.Submit | local-assistant/chat_app.py:551-603 | an empty input changes nothing; otherwise the history gains the user message and then the reply, and the model is sent the system prompt, every earlier message in order with its role normalised and its content kept, and the new user message last |

## Left out

- Reading the table (`pd.read_csv`), walking the data folder, opening files and rendering CSV summaries are not modelled. Their results are inputs to the model: the table is a sequence of records, and the loaded files are ordered (name, text) sequences.
- `check_model` and `query_local_model` are HTTP calls to the model server and are not modelled. The model's reply is a parameter of `ChatSession.Submit`.
- The Streamlit layout, CSS, charts, metric formatting (`:,.2f`, `:.0%`), the `session_state` persistence and the `@st.cache_data` cache are presentation only and are not modelled.
- The commented-out earlier version at the top of `local-assistant/chat_app.py` (lines 1-300) is not live code and is not modelled.
- IEEE float rounding is not modelled, and neither is NaN beyond the `fillna(1)` default of the power tier. All arithmetic is exact `real` arithmetic.
- The task-type choice (app.py:239-247) is never used in the score, so there is nothing to model.
- `app.py` computes no tiered routing and no sustainability score, so neither is modelled.
- Dashboard.RecommendedIndex: promises *a* row with the maximal score, not the first one in load order. The pandas sort used is not stable, so the code does not fix which of several tied rows comes first.
- LocalAssistant.FinalChunksEmpty: the lower-casing it relies on (`Strings.Lower`) changes only the ASCII letters A-Z. Python's `str.lower` also folds non-ASCII letters, and that folding is not modelled.
- LocalAssistant.BuildProjectContexts: the loaded files are assumed to have distinct names. This holds for the paths the loaders use as dictionary keys, and it is why a Python `dict` can be modelled as a sequence.
