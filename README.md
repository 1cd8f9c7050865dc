# Volunteer-computing dashboard: badge rules, metrics routes, records, translator

This project models the decision logic of a volunteer-computing dashboard
(a Flask back end with a small JavaScript front end) and proves properties
of it in Dafny. The model covers five parts:

- **Badge routes** (`src/routes/badges.py`). The four tiered badges a
  volunteer earns from fixed thresholds. The composite-score leaderboard,
  ranked and cut to 50. The volunteer of the week, month and year. The
  top-performer sections. The listing of attributed badges with its
  pagination flag. One volunteer's attributions with their per-period and
  per-category counts. The details of one attribution. The recently
  attributed badges.
- **Badge seeding** (`src/seed_badges.py`). The constant table of sixteen
  default badges with their tier ranges. The seeding procedure: the decline
  path, the loop that adds and counts, and the final commit or rollback.
- **Dashboard routes** (`src/routes/metrics.py`). The latest system sample.
  The volunteer list, one volunteer's details and the list of tasks. The
  performance-history window. The cost-savings and volunteer-performance
  summaries. The demonstration rows several routes store when their query
  comes back empty.
- **Records** (`src/models/metrics.py`, `src/models/badge.py`).
  `SystemMetrics`, `Volunteer`, `Task`, `PerformanceHistory`, `Badge` and
  `VolunteerBadge` as datatypes with their column defaults. Each `to_dict`
  is modelled with a decoder that inverts it.
- **Translator** (`src/static/assets/js/i18n.js`). The `I18n` object's
  current language, `setLanguage`, `t(key, params)`, and the French and
  English tables.

A database query becomes filter, sort and take over a sequence of records
(module `Query`). The clock is a parameter `now`: an instant is a whole
number of seconds. Python floats are `real`. A route's success, 404 or 500
answer is the `Response` datatype.

The loops of the source are methods proved against functions that specify
them:

- the badge list (`BadgeRoutes.AwardBadges`);
- the leaderboard's scoring and numbering (`BadgeRoutes.ScoreVolunteers`,
  `BadgeRoutes.AssignRanks`);
- the statistics loop (`AttributionRoutes.GetVolunteerAttributedBadges`);
- the demonstration history (`MetricsRoutes.BuildHistory`);
- the seeding loop (`SeedBadges.BuildRows`);
- the translator's segment and placeholder loops (`I18nModel.FollowSegments`,
  `I18nModel.FillPlaceholders`).

The state the source changes lives in classes:

- `MetricsStore` holds the four tables the dashboard routes read and extend;
- `BadgeStore` holds the badge catalogue the seeding script rewrites;
- `I18n` holds the current language.

Modules: `Common`, `Query` and `Tally` hold shared pieces; `MetricsModel` and
`BadgeModel` hold the records; `BadgeRoutes`, `AttributionRoutes`,
`MetricsRoutes`, `SeedBadges` and `I18nModel` hold the logic. The module
`Translations` holds the two tables, section by section.

`get_tasks` (src/routes/metrics.py:121-137) stores its demonstration tasks
whenever the query result is empty, not only when the table is; see
`MetricsRoutes.MetricsStore.GetTasks` and
`MetricsRoutes.FallbackNotRepeatable`.

`Volunteer.to_dict` (src/models/metrics.py:55-56) calls `isoformat()` on
`joined_date` and `last_seen` without a test, and both columns may be
NULL. A route that serialises a volunteer with a missing date falls into
its catch-all handler. In every route but one that handler answers 500, the
`ServerError` outcome of `Response`. The attribution-details route's handler
answers 404 (src/routes/badges.py:459-464), so there the outcome is
`NotFound`.

## Model

| member | source | states |
|---|---|---|
| BadgeRoutes.AwardBadges | src/routes/badges.py:191-231 | 'Participant Actif' is present iff tasks_completed > 0, 'Performance Excellence' iff score >= 80, 'Contributeur Fidèle' iff computation time >= 10, 'Vétéran' iff whole days since joining >= 30 (0 days when joined_date is missing). Each badge quotes the volunteer's own figure and has the level its thresholds give. The badges appear in that order, at most four of them |
| BadgeRoutes.BadgeRulesDetermineList | src/routes/badges.py:191-231 | The award rules leave no freedom: two lists that both satisfy them are equal, so the method's contract describes the route's list exactly |
| BadgeRoutes.IncreasingDetermined | src/routes/badges.py:191-231 | Two kind-ordered badge lists with the same kinds, and the same badge for each kind, are the same list |
| BadgeRoutes.JustifiedUnique | src/routes/badges.py:194-230 | For a given volunteer there is only one justified badge of each kind: its level and text are fixed by the thresholds |
| BadgeRoutes.StepNext | src/routes/badges.py:194-230 | Each of the four `if` blocks appends its badge exactly when its threshold holds and keeps the list ordered by kind |
| BadgeRoutes.NewVolunteerHasNoBadges | src/routes/badges.py:194-224 | A volunteer with the column defaults (no tasks, score 0, no hours, joined now) earns no badge at all |
| BadgeRoutes.GetVolunteerBadges | src/routes/badges.py:180-239 | 404 with 'Volontaire non trouvé' iff no volunteer has the id. 500 only when a volunteer with the id cannot be serialised, and never when all of them can. Otherwise the volunteer with that id, serialisable, its badge list under the award rules, and total_badges equal to the list length, at most 4 |
| BadgeRoutes.PeriodFilter | src/routes/badges.py:256-264 | A volunteer is kept iff it is in the input and passes the period test: last_seen within 7 days for 'week', within 30 days for 'month', joined within 365 days for 'year'. Every other period keeps everyone |
| BadgeRoutes.OtherPeriodKeepsAll | src/routes/badges.py:256-264 | A period other than week, month or year leaves the list unchanged, order included |
| BadgeRoutes.Winner | src/routes/badges.py:17-21 | ORDER BY key DESC then first() inside a recency filter. Nothing iff no volunteer passes the filter. Otherwise a volunteer that passes it, whose key no other passing volunteer exceeds |
| BadgeRoutes.VolunteerOfWeek | src/routes/badges.py:11-44 | 404 iff no volunteer was seen in the last 7 days. 500 only when some volunteer of that window cannot be serialised, never when all can. Otherwise a serialisable volunteer seen in that window, with the most completed tasks among those seen in it |
| BadgeRoutes.VolunteerOfMonth | src/routes/badges.py:47-80 | 404 iff no volunteer was seen in the last 30 days. 500 only when some volunteer of that window cannot be serialised, never when all can. Otherwise the window's serialisable volunteer with the highest performance score |
| BadgeRoutes.VolunteerOfYear | src/routes/badges.py:83-116 | 404 iff no volunteer joined in the last 365 days. 500 only when some volunteer of that window cannot be serialised, never when all can. Otherwise the window's serialisable volunteer with the most computation time |
| BadgeRoutes.Scored | src/routes/badges.py:271-280 | The appended row holds the volunteer, no rank yet, and a score within half a cent of 0.4·tasks + 0.3·score + 0.3·hours |
| BadgeRoutes.ScoreVolunteers | src/routes/badges.py:270-280 | The scoring loop fails iff some volunteer cannot be serialised. Otherwise it yields one unranked row per volunteer, in input order |
| BadgeRoutes.AssignRanks | src/routes/badges.py:285-287 | The numbering loop gives the row at position k the rank k + 1 and changes nothing else |
| BadgeRoutes.GetLeaderboard | src/routes/badges.py:249-301 | 500 iff some volunteer of the period cannot be serialised. Otherwise total_volunteers is the size of the period-filtered set before the cut. The board holds min(50, that size) rows ranked 1, 2, … without gaps. Each row is a filtered volunteer with its rounded composite score. Scores never increase down the board, and no volunteer appears more often than in the pool. A volunteer left off the board scores no higher than any row on it |
| BadgeRoutes.LeaderboardFacts | src/routes/badges.py:270-287 | Scoring every volunteer, cutting the sorted rows at 50 and numbering them produces a board with all the properties above |
| BadgeRoutes.RankedLeftOut | src/routes/badges.py:283-287 | A volunteer missing from the board has a rounded score no higher than that of any ranked row |
| BadgeRoutes.MostConnected | src/routes/badges.py:127-139 | Only 'active' or 'busy' volunteers, min(limit, their number) of them, all of them for a negative limit, by computation time descending. No volunteer left out of the section has more time than one listed |
| BadgeRoutes.Fastest | src/routes/badges.py:141-153 | Only 'active' or 'busy' volunteers, min(limit, their number), all of them for a negative limit, by performance score descending. No volunteer left out of the section scores higher than one listed |
| BadgeRoutes.MostTasks | src/routes/badges.py:155-165 | Any status, min(limit, count) volunteers, all of them for a negative limit, by completed tasks descending. No volunteer left out of the section has more tasks than one listed |
| BadgeRoutes.TopSections | src/routes/badges.py:122-165 | 'all' gives all three sections. 'connected', 'fast' and 'tasks' give exactly their own section. Any other category gives none. Each section present is the one computed above |
| BadgeRoutes.TopPerformers | src/routes/badges.py:119-177 | 500 iff a volunteer listed in some section cannot be serialised, and then some stored volunteer cannot be. Otherwise the sections above |
| AttributionRoutes.ListAttributed | src/routes/badges.py:311-360 | Only non-revoked rows that pass the period, volunteer and badge filters are listed. total counts every matching row. The page is the slice [offset, offset+limit) of a newest-first arrangement of the matches, with its length stated. has_more holds iff offset + limit < total |
| AttributionRoutes.HasMoreIffRowsBeyond | src/routes/badges.py:349-358 | With a positive limit, has_more holds iff the next page (offset + limit) is non-empty |
| AttributionRoutes.PeriodKey | src/routes/badges.py:407 | The period when it is a non-empty string, 'all-time' otherwise |
| AttributionRoutes.CategoryKey | src/routes/badges.py:411-412 | The badge's category when it is a non-empty string, 'other' otherwise |
| AttributionRoutes.IncludeRevoked | src/routes/badges.py:389 | True iff the parameter is present and spells 'true' in any mix of capital and small letters; false when it is absent |
| AttributionRoutes.GetVolunteerAttributedBadges | src/routes/badges.py:369-428 | 404 with 'Volontaire non trouvé' iff the volunteer is unknown. 500 only when a volunteer with the id cannot be serialised, and never when all of them can. Otherwise the volunteer, serialisable, and the volunteer's rows, revoked ones only when asked for, newest first. total, active and revoked counts over that list. by_period and by_category equal the per-key counts of the active rows, and of the active rows with a badge |
| AttributionRoutes.StatisticsAddUp | src/routes/badges.py:400-425 | active_badges + revoked_badges = total_badges. by_period's values add up to active_badges. by_category's values add up to the active rows that have a badge |
| AttributionRoutes.ByPeriodCounts | src/routes/badges.py:404-408 | A period key appears in by_period iff some active row maps to it, and its value is the number of such rows |
| AttributionRoutes.RevokedOnlyWhenIncluded | src/routes/badges.py:392-397 | Without include_revoked the listed rows contain no revoked row |
| AttributionRoutes.FindAttribution | src/routes/badges.py:445 | Nothing iff no row has the id. Otherwise a row with that id |
| AttributionRoutes.AttributionDetails | src/routes/badges.py:437-464 | 404 iff there is no attribution with that id, or its volunteer exists but cannot be serialised. Otherwise the dictionary decodes back to the attribution, with its badge. It holds a 'volunteer' entry iff the volunteer exists, and that entry decodes back to that volunteer |
| AttributionRoutes.VolunteerIsNotAColumn | src/routes/badges.py:453-455 | Adding the 'volunteer' entry leaves every attribution column intact |
| AttributionRoutes.RecentAttributed | src/routes/badges.py:468-502 | min(limit, number of matches) non-revoked rows earned since now − hours, newest first, taken from the table, none more often than it is stored. No matching row left out is newer than one listed. count is the length of the list |
| Tally.Bump | src/routes/badges.py:408 | `d[k] = d.get(k, 0) + 1`: the key is added if missing, its count goes up by one, and every other count is unchanged |
| Tally.TallySum | src/routes/badges.py:404-413 | The counts of a tally add up to the number of rows it counted |
| Tally.TallyCounts | src/routes/badges.py:404-413 | A key is in the tally iff some counted row maps to it, and its count is the number of such rows |
| Query.Filter | src/routes/badges.py:333-342 | WHERE: exactly the rows satisfying the predicate, each as often as at most in the input |
| Query.CountIsFilterLength | src/routes/metrics.py:200 | count() of a query equals the length of its result |
| Query.CountSplit | src/routes/badges.py:422-423 | Counting a predicate and its negation covers every row exactly once |
| Query.SortDesc | src/routes/badges.py:345 | ORDER BY key DESC: a permutation of the input with keys non-increasing |
| Query.Take | src/routes/metrics.py:119 | LIMIT n: the first min(n, length) rows |
| Query.Page | src/routes/badges.py:349 | LIMIT n OFFSET k: at most n rows, the slice starting at k, and nothing when k is past the end |
| Query.TopBy | src/routes/badges.py:129-133 | ORDER BY key DESC LIMIT n: min(n, length) rows drawn from the input, sorted, and no row left out ranks above a row kept |
| Query.First | src/routes/badges.py:17-21 | ORDER BY key DESC then first(): nothing iff the input is empty, otherwise a row of the input with the largest key |
| Query.TopOfFilter | src/routes/metrics.py:91-93 | WHERE p ORDER BY key DESC LIMIT n stated over the whole table: min(n, matches) matching rows, none more often than the table holds it, and no matching row left out ranks higher than a kept one |
| Common.WholeDays | src/routes/badges.py:223 | `(now - t).days`: the number of whole days in the interval, rounded toward minus infinity |
| Common.AsciiLower | src/seed_badges.py:22 | `.lower()` on the answer: same length, ASCII capitals turned into small letters, other characters kept |
| Common.Round2 | src/routes/badges.py:279 | round(x, 2) lies within half a cent of x |
| Common.Round2Monotone | src/routes/badges.py:279-283 | Rounding keeps the order of scores |
| Common.OptTime | src/models/badge.py:75-86 | `x.isoformat() if x else None`: null iff the date is absent, and the value decodes back |
| Common.OptStr | src/models/badge.py:76 | A nullable text column: null iff absent, and the value decodes back |
| Common.OptInt | src/models/badge.py:81 | A nullable integer column: null iff absent, and the value decodes back |
| Common.OptReal | src/models/badge.py:80 | A nullable float column: null iff absent, and the value decodes back |
| BadgeModel.NewBadge | src/models/badge.py:14-24 | Column defaults of a new Badge: icon '🏆', level 'bronze', active, no description, category or criteria, both timestamps now |
| BadgeModel.BadgeDictKeys | src/models/badge.py:28-40 | Badge.to_dict has exactly the eleven column keys |
| BadgeModel.BadgeNameLookups | src/models/badge.py:29-32 | id, badge_id and name as stored; description as text or null |
| BadgeModel.BadgeLookLookups | src/models/badge.py:33-35 | category as text or null; icon and level as stored |
| BadgeModel.BadgeStateLookups | src/models/badge.py:36-39 | criteria passes through unchanged, active as a boolean, created_at and updated_at as ISO text or null |
| BadgeModel.BadgeDictNulls | src/models/badge.py:31-39 | description, category, created_at and updated_at are null exactly when the column is |
| BadgeModel.BadgeRoundTrip | src/models/badge.py:26-40 | Decoding Badge.to_dict gives the badge back: no field is lost or altered |
| BadgeModel.NewVolunteerBadge | src/models/badge.py:50-64 | Column defaults of a new attribution inserted at now: earned_date as given, or now when none is; created_at now whatever the earned date; not notified, not revoked, no period, reason, metric or rank |
| BadgeModel.ColumnKeys | src/models/badge.py:71-87 | The attribution's column dictionary has exactly the fifteen column keys |
| BadgeModel.IdLookups | src/models/badge.py:72-73 | id and volunteer_id as stored |
| BadgeModel.AwardLookups | src/models/badge.py:74-76 | badge_id is the integer foreign key, earned_date in ISO form, period as stored |
| BadgeModel.PeriodLookups | src/models/badge.py:77-79 | period_start and period_end as ISO text or null; reason as text or null |
| BadgeModel.RankLookups | src/models/badge.py:80-82 | metric_value and rank as numbers or null; notified as a boolean |
| BadgeModel.StateLookups | src/models/badge.py:83-86 | notification_date, revoked_date and created_at as ISO text or null; revoked as a boolean |
| BadgeModel.LookupsRoundTrip | src/models/badge.py:71-87 | Any dictionary holding the fifteen column values of an attribution decodes back to that attribution, less its badge |
| BadgeModel.ColumnsIgnoreBadgeKey | src/models/badge.py:89-90 | Adding the 'badge' key leaves what the columns decode to unchanged |
| BadgeModel.BadgeIsNotAColumn | src/models/badge.py:71-87 | 'badge' is not one of the fifteen column keys, so adding it overwrites no column |
| BadgeModel.ColumnsRoundTrip | src/models/badge.py:71-87 | The column dictionary decodes back to the attribution, less its badge relation |
| BadgeModel.VolunteerBadgeToDict | src/models/badge.py:69-92 | The 'badge' key is present iff include_badge is set and the relation is loaded. Its value is Badge.to_dict of that badge |
| BadgeModel.VolunteerBadgeDictKeys | src/models/badge.py:71-90 | The keys are the fifteen columns, plus 'badge' exactly in the case above |
| BadgeModel.VolunteerBadgeRoundTrip | src/models/badge.py:69-92 | Decoding to_dict gives the attribution back, with its badge when include_badge is set and without it otherwise |
| MetricsModel.NewSystemMetrics | src/models/metrics.py:7-17 | Column defaults of a sample: every count 0 and every measure 0.0, stamped now |
| MetricsModel.SystemMetricsToDict | src/models/metrics.py:19-32 | Exactly id, timestamp and the nine numeric fields, and the dictionary decodes back to the sample |
| MetricsModel.NewVolunteer | src/models/metrics.py:37-47 | Column defaults of a volunteer: status 'inactive', 0 tasks, 0.0 hours, 1 core, 1.0 GB, score 0.0, joined and last seen now |
| MetricsModel.FindVolunteer | src/routes/metrics.py:82 | `filter_by(volunteer_id=…).first()`: nothing iff no volunteer has the id, otherwise one that has it |
| MetricsModel.FindVolunteerUnique | src/models/metrics.py:38 | With unique volunteer ids, the lookup finds each stored volunteer by its own id |
| MetricsModel.VolunteerToDict | src/models/metrics.py:49-62 | Defined only when both dates are set, since isoformat is called unguarded. Exactly the eleven keys, and the dictionary decodes back to the volunteer |
| MetricsModel.NewTask | src/models/metrics.py:67-77 | Column defaults of a task: status 'pending', no volunteer, no start or completion, 0.0 time and usage, created now |
| MetricsModel.TaskDictKeys | src/models/metrics.py:79-92 | Task.to_dict has exactly the eleven column keys |
| MetricsModel.TaskNameLookups | src/models/metrics.py:81-84 | id, task_id, workflow_id and status as stored |
| MetricsModel.TaskDateLookups | src/models/metrics.py:85-88 | assigned_volunteer passes through, possibly null. created_date is in ISO form. started_date and completed_date are in ISO form or null |
| MetricsModel.TaskUsageLookups | src/models/metrics.py:89-91 | execution_time, cpu_usage and memory_usage as stored |
| MetricsModel.TaskDictNulls | src/models/metrics.py:85-88 | started_date, completed_date and assigned_volunteer are null exactly when absent |
| MetricsModel.TaskRoundTrip | src/models/metrics.py:79-92 | Decoding Task.to_dict gives back the original Task |
| MetricsModel.NewPerformanceHistory | src/models/metrics.py:97-104 | Column defaults of a history row: usage 0.0, success true |
| MetricsModel.PerformanceHistoryToDict | src/models/metrics.py:106-116 | Exactly the eight keys, and the dictionary decodes back to the row |
| MetricsRoutes.PadDigits | src/routes/metrics.py:52 | `{i:03d}`: decimal digits only, at least the width asked for |
| MetricsRoutes.PadDigitsValue | src/routes/metrics.py:52 | The padded digits read back as the number they format |
| MetricsRoutes.NumberedCodesDistinct | src/routes/metrics.py:50-61 | Codes numbered 1..n with the same prefix are pairwise distinct |
| Query.NextId | src/models/metrics.py:67 | The id the table hands out is positive and above every stored id, and 1 in an empty table |
| MetricsRoutes.Sample | src/routes/metrics.py:17-27 | A demonstration sample carries the id and time it is given, with the drawn values |
| MetricsRoutes.LatestSample | src/routes/metrics.py:13 | Nothing iff the table is empty. Otherwise a stored sample no other sample is newer than |
| MetricsRoutes.DemoVolunteer | src/routes/metrics.py:51-60 | Volunteer i is 'vol_' + its number padded to three digits, named 'Volontaire i', with both dates set |
| MetricsRoutes.DemoVolunteers | src/routes/metrics.py:50-61 | Twenty demonstration volunteers numbered 1..20, with pairwise distinct volunteer ids |
| MetricsRoutes.RecentHistory | src/routes/metrics.py:91-93 | min(50, the volunteer's row count) of that volunteer's rows, none more often than it is stored, newest first. No row of theirs left out is newer than one kept |
| MetricsRoutes.GetVolunteerDetails | src/routes/metrics.py:79-101 | 404 with 'Volontaire non trouvé' iff the id is unknown. 500 only when a volunteer with the id cannot be serialised, and never when all of them can. Otherwise that volunteer, serialisable, and its recent history |
| MetricsRoutes.DemoTask | src/routes/metrics.py:124-132 | Task i is 'task_' + four digits, with workflow 'workflow_' + two digits. It has a volunteer iff one was drawn, and no start or completion |
| MetricsRoutes.DemoTasks | src/routes/metrics.py:123-133 | A hundred demonstration tasks numbered 1..100, with pairwise distinct task ids |
| MetricsRoutes.TaskQuery | src/routes/metrics.py:112-119 | Tasks of the status, when one is given, newest first. Exactly min(limit, matches) of them, all matches for a negative limit, none more often than it is stored. No match left out is newer than one kept |
| MetricsRoutes.SliceTo | src/routes/metrics.py:138 | Python `[:limit]`: a prefix of min(limit, length) items. A negative limit drops that many items from the end |
| MetricsRoutes.FallbackNotRepeatable | src/routes/metrics.py:122-137 | Once the demonstration tasks are stored after any rows already in the table, their codes are taken. Any later query that matches nothing tries to store them again, and that insert conflicts with the unique task_id |
| MetricsRoutes.MetricsWindow | src/routes/metrics.py:158-160 | Exactly the samples at or after the start, each as often as stored, oldest first |
| MetricsRoutes.DemoHistoryInWindow | src/routes/metrics.py:163-179 | The fallback yields days·24 samples, none for days ≤ 0. Their timestamps strictly increase, one hour apart from the window's start, and all lie within [now − days, now) |
| MetricsRoutes.BuildHistory | src/routes/metrics.py:164-181 | The loop builds exactly the sequence of hourly demonstration samples |
| MetricsRoutes.GetCostSavings | src/routes/metrics.py:199-221 | For n completed tasks: traditional cost 0.50·n, volunteer cost 0.05·n, savings 0.45·n. The percentage is 0 when n = 0 and exactly 90 otherwise. Cost per task saved is the constant 0.45 |
| MetricsRoutes.SavingsShare | src/routes/metrics.py:210 | savings / traditional · 100 is 90 for every positive task count |
| MetricsRoutes.AverageBounds | src/routes/metrics.py:241 | The average of values that all lie within [lo, hi] lies within [lo, hi] |
| MetricsRoutes.ActivityRate | src/routes/metrics.py:253 | 0 when there are no volunteers. Otherwise within half a cent of active / total · 100, as round(_, 2) gives. Always within [0, 100]; exactly 100 when all are active, 0 when none is |
| MetricsRoutes.TopVolunteers | src/routes/metrics.py:234-236 | The first min(10, count) volunteers by completed tasks descending, none more often than it is stored. No volunteer left out has more tasks than one listed |
| MetricsRoutes.GetVolunteerPerformance | src/routes/metrics.py:224-260 | 500 iff one of the top ten cannot be serialised, and then some volunteer cannot be. Otherwise the top ten of TopVolunteers, all serialisable, none with fewer tasks than a volunteer left out, and the statistics block of StatisticsOf: the counts, the rounded mean score, the rounded total hours and the rounded activity rate |
| MetricsRoutes.StatisticsOf | src/routes/metrics.py:239-254 | total and active counts, active ≤ total. On a non-empty table the average score lies within half a cent of the sum of scores over the count, and the activity rate within half a cent of active / total · 100, in [0, 100]. Total hours lie within half a cent of the sum of computation times. Average score and total hours are 0 on an empty table |
| MetricsRoutes.AverageScoreInRange | src/routes/metrics.py:241-251 | When every score lies within [lo, hi], the reported average lies within [round(lo), round(hi)] |
| MetricsRoutes.MetricsStore.GetSystemMetrics | src/routes/metrics.py:9-35 | A non-empty table is left alone and its newest sample returned. An empty table gets one demonstration sample, which is returned. The other tables are untouched |
| MetricsRoutes.MetricsStore.GetVolunteers | src/routes/metrics.py:43-71 | A non-empty table is left alone and returned, or answered with 500 iff one of its volunteers cannot be serialised. An empty one is filled with the twenty demonstration volunteers, which are returned. Volunteer ids stay unique |
| MetricsRoutes.MetricsStore.GetTasks | src/routes/metrics.py:109-143 | A non-empty query result is returned and nothing is stored. Otherwise the hundred demonstration tasks are stored and their first `limit` returned. The commit fails, storing nothing, exactly when a stored task already holds one of their codes. After a fallback that commits, the codes are taken, so the next fallback fails. Task ids stay unique |
| MetricsRoutes.MetricsStore.AddDemoTasks | src/routes/metrics.py:122-138 | The demonstration fallback on its own: stores all hundred tasks and returns `demo[:limit]`, or fails on a code clash and leaves the table unchanged |
| MetricsRoutes.MetricsStore.GetPerformanceAnalytics | src/routes/metrics.py:151-188 | A non-empty window is returned oldest first, and nothing is stored. Otherwise the hourly demonstration samples are stored and returned |
| SeedBadges.CriteriaJson | src/seed_badges.py:40-185 | Every criteria value is a JSON object with a 'type' key |
| SeedBadges.DefaultBadgeIdsDistinct | src/seed_badges.py:31-187 | The table has sixteen entries, and their badge ids are pairwise distinct |
| SeedBadges.SeededLevel | src/seed_badges.py:62-165 | Nothing iff no tier of the family covers the value. Otherwise the level of a tier that covers it |
| SeedBadges.Coverage | src/seed_badges.py:62-165 | The number of tiers covering a value is 0 iff none covers it |
| SeedBadges.ParticipantTiersAscend | src/seed_badges.py:62-88 | Minimums 50 < 200 < 500, levels bronze, silver, gold |
| SeedBadges.PerformanceTiersAscend | src/seed_badges.py:91-108 | Minimums 80 < 95, levels silver, gold |
| SeedBadges.LoyaltyTiersAscend | src/seed_badges.py:111-137 | Minimums 50 < 200 < 500, levels bronze, silver, gold |
| SeedBadges.VeteranTiersAscend | src/seed_badges.py:140-166 | Minimums 90 < 365 < 730, levels bronze, silver, gold |
| SeedBadges.TaskTiersPartition | src/seed_badges.py:69-87 | Every whole task count from 50 up lies in exactly one participant tier. Below 50 it lies in none |
| SeedBadges.DayTiersPartition | src/seed_badges.py:147-165 | Every whole day count from 90 up lies in exactly one veteran tier. Below 90 it lies in none |
| SeedBadges.HourTiersLeaveGaps | src/seed_badges.py:118-136 | Computation time is a real number, so values strictly between 199 and 200, or between 499 and 500, lie in no loyalty tier. Every other value from 50 up lies in exactly one |
| SeedBadges.ScoreTiersLeaveGap | src/seed_badges.py:98-107 | Scores strictly between 94.9 and 95 lie in no performance tier. Every other score from 80 up lies in exactly one |
| SeedBadges.ParticipantTiersDisagree | src/seed_badges.py:62-88 | The seeded tier level equals the level the badge route hard-codes (src/routes/badges.py:199-200) only from 500 tasks on |
| SeedBadges.VeteranTiersDisagree | src/seed_badges.py:140-166 | From 30 days on, the seeded veteran level equals the route's level only from 730 days on |
| SeedBadges.LoyaltyTiersDisagree | src/seed_badges.py:111-137 | From 10 hours on, the seeded loyalty level equals the route's level only from 500 hours on |
| SeedBadges.PerformanceTiersDisagree | src/seed_badges.py:91-108 | From a score of 80 on, the seeded level equals the route's level everywhere except in the gap (94.9, 95) |
| SeedBadges.SpecToBadge | src/seed_badges.py:193-194 | `Badge(**badge_data)` once added: the entry's fields, its criteria as JSON, active, stamped now, with the id the table hands out |
| SeedBadges.BuiltRows | src/seed_badges.py:190-196 | One row for each entry that constructs, and each row is made from such an entry |
| SeedBadges.BuiltUnique | src/seed_badges.py:190-196 | Entries with distinct badge ids give rows with distinct badge ids |
| SeedBadges.SeededCatalogueUnique | src/seed_badges.py:190-202 | After a committed seeding, the catalogue's badge ids are unique, as the unique badge_id column demands |
| SeedBadges.BuildRows | src/seed_badges.py:190-196 | The loop adds exactly the rows of the constructed entries. created_count is the number of entries that constructed |
| SeedBadges.BadgeStore.Seed | src/seed_badges.py:10-207 | It declines iff badges exist and the lower-cased answer is not 'y'; then nothing changes. Otherwise created_count is the number of entries that construct. A successful commit leaves exactly their rows, with ids from 1 as the emptied table hands them out. A failed commit rolls back to the emptied table |
| I18nModel.ObjectOf | src/static/assets/js/i18n.js:9-356 | A flat table as an object: the same keys, each holding its text |
| I18nModel.Split | src/static/assets/js/i18n.js:384 | `key.split('.')`: at least one piece, no piece holds a dot, and joining the pieces with dots gives the key back |
| I18nModel.SplitNoSeparator | src/static/assets/js/i18n.js:384 | A key without a dot splits into itself alone |
| I18nModel.SplitWithSeparator | src/static/assets/js/i18n.js:384 | A key with a dot splits into at least two pieces, the first holding no dot |
| I18nModel.Member | src/static/assets/js/i18n.js:388-389 | `translation && translation[k]`: found iff the value is an object with a truthy member k, and then it is that member |
| I18nModel.WalkFindsNested | src/static/assets/js/i18n.js:387-393 | On tables nested segment by segment, the walk reaches the text at the end of the key |
| I18nModel.IndexOf | src/static/assets/js/i18n.js:398 | The first position at or after `from` where the pattern occurs, or nothing iff it occurs nowhere there |
| I18nModel.ReplaceFirst | src/static/assets/js/i18n.js:398 | `s.replace(pat, rep)`: unchanged when the pattern does not occur. Otherwise only the first occurrence is replaced |
| I18nModel.SubstituteNothing | src/static/assets/js/i18n.js:396-402 | With no parameters, a text comes back as it is |
| I18nModel.UnknownLanguageKeepsKey | src/static/assets/js/i18n.js:385-392 | When the current language has no table, every key comes back unchanged |
| I18nModel.DottedKeysUntranslated | src/static/assets/js/i18n.js:384-392 | Over flat tables whose keys all hold a dot, every dotted key comes back unchanged, in any language, with any parameters |
| I18nModel.ShippedObjects | src/static/assets/js/i18n.js:9-356 | The translations object has exactly 'fr' and 'en', each holding its table |
| I18nModel.ShippedTranslationsFlat | src/static/assets/js/i18n.js:12-354 | Both shipped tables are flat, all their keys are dotted, and they define the same keys |
| I18nModel.ShippedKeysUntranslated | src/static/assets/js/i18n.js:384-392 | t returns every shipped key unchanged, whatever the language and parameters |
| I18nModel.FlatTranslate | src/static/assets/js/i18n.js:383-402 | Lookup of the whole key. The key when the language or entry is missing or falsy. Otherwise the entry, with its placeholders filled when it is text |
| I18nModel.UndottedKeysAgree | src/static/assets/js/i18n.js:384-402 | For a key without a dot, t and the whole-key lookup agree |
| I18nModel.FlatTranslateFindsShippedKeys | src/static/assets/js/i18n.js:12-354 | The whole-key lookup finds the French and the English text of every shipped key |
| I18nModel.FollowSegments | src/static/assets/js/i18n.js:387-393 | The segment loop returns what the walk specifies: nothing exactly where `t` falls back to the key |
| I18nModel.FillPlaceholders | src/static/assets/js/i18n.js:396-400 | The forEach loop fills the placeholders one parameter at a time, each at its first occurrence, in the order given |
| I18nModel.I18n.constructor | src/static/assets/js/i18n.js:7-10 | The stored language, unchecked, unless it is absent or empty, in which case 'fr'. The shipped tables |
| I18nModel.I18n.SetLanguage | src/static/assets/js/i18n.js:369-377 | The language changes iff it has a table. Otherwise the state is unchanged |
| I18nModel.I18n.T | src/static/assets/js/i18n.js:383-403 | `t(key, params)` for the current language: the key on a failed walk, the filled text for a text, the object itself otherwise |
| Translations.TableOf | src/static/assets/js/i18n.js:10-182 | An object literal: a key is in the table iff some entry names it, and its text comes from such an entry |
| Translations.AllSectionsAgree | src/static/assets/js/i18n.js:12-354 | The French and English entries match line for line: the same dotted key on each line, and non-empty texts |
| Translations.AgreeingTables | src/static/assets/js/i18n.js:12-354 | Entry lists that match line for line give tables with the same keys, all dotted, with non-empty texts |
| Translations.ShippedTables | src/static/assets/js/i18n.js:12-354 | The French and English tables define the same keys. Every key is dotted and every text non-empty |

## Left out

- HTTP: Flask routing, `jsonify`, the success/data envelope and status codes. A route's answer is `Response`: Ok, NotFound with its message, or ServerError for the 500 a volunteer with a missing date causes. The other 500 causes (any query argument read with `int()` that is not an integer: `limit`, `offset`, `hours`, `days` or `badge_id`; and database errors) are not modelled, and the 500 message text is not kept. A non-integer attribution id in the path matches no route, which is Flask's routing 404, also not modelled.
- Sessions: SQLAlchemy sessions and `add`/`commit`. A commit's outcome is an input of the method that performs it.
- Statistics route: `get_attribution_statistics` (src/routes/badges.py:505-570) is SQL `group_by`/`join` aggregation and is not modelled.
- Demonstration values: the random values of demonstration rows are parameters (a draw per row). Their count, identifiers and timestamps are modelled.
- Clock: `datetime.utcnow()` is the parameter `now`. Instants are whole seconds, and `isoformat()` is an abstract JSON time value.
- Common.AsciiLower: only the ASCII capitals A to Z are lowered; Python's `str.lower()` also lowers other capitals ('É' to 'é', and 'İ' to two characters). Both places that use it compare the result with ASCII text ('y' at src/seed_badges.py:22, 'true' at src/routes/badges.py:389), and only the ASCII capitals 'Y' and 'T', 'R', 'U', 'E' lower to those letters, so those comparisons come out the same.
- Common.Round2: `round(x, 2)` is rounding half up in exact arithmetic. Python rounds the binary float half to even, so the model states only that the result lies within half a cent of x and keeps the order.
- Floating point: Python floats are exact reals. Ties, overflow and binary representation are not modelled.
- Formatting: the f-string texts with `:.1f` in badge descriptions keep the raw value. Their decimal formatting is not modelled.
- Criteria numbers: the criteria JSON in the seed table stores every bound as a real. The int/float distinction of the literals is not kept.
- Tie order: the database leaves the order of rows with equal sort keys unspecified, and no contract fixes it.
- AttributionRoutes.ListAttributed: limit and offset are natural numbers. A negative value, which SQL would reject or read differently, is not modelled.
- AttributionRoutes.AttributionDetails: the 404 message text, an exception string, is not modelled; only the NotFound outcome is.
- AttributionRoutes.RecentAttributed: limit is a natural number; a negative limit is not modelled.
- Column values: NULL in a numeric, text, Boolean or date column that has a default is taken as the default, so those columns are never null. This covers the Boolean columns `active`, `notified`, `revoked` and `success`, and the task's `created_date` (src/models/metrics.py:72). `Task.to_dict` calls `isoformat()` on `created_date` without a test (src/models/metrics.py:86), so a NULL one would make `/tasks` answer 500; the model does not capture that 500. The volunteer's `joined_date` and `last_seen` are the exception: they are optional, as the routes test them (src/routes/badges.py:223), and a missing one makes serialisation fail as described above.
- BadgeModel.BadgeToDict and MetricsModel.TaskToDict carry no ensures of their own. Their keys, lookups, nulls and round trips are stated by the rows BadgeModel.BadgeDictKeys, BadgeNameLookups, BadgeLookLookups, BadgeStateLookups, BadgeDictNulls and BadgeRoundTrip, and MetricsModel.TaskDictKeys, TaskNameLookups, TaskDateLookups, TaskUsageLookups, TaskDictNulls and TaskRoundTrip. The decoders (`BadgeOfDict`, `ColumnsOfDict`, `VolunteerBadgeOfDict`, `TaskOfDict` and the other `OfDict` functions) are the inverse definitions those round trips use; they model no source code of their own.
- seed_badges I/O: the `input()` prompt is the parameter `answer`, and the `print` output is not modelled. Whether a `Badge(**badge_data)` call succeeds is the predicate `constructs`.
- i18n.js, DOM side: `translatePage`, `createLanguageSelector`, `init`, `addStyles`, `localStorage`, the `languageChanged` event and `getCurrentLanguage` are not modelled. The stored language is a constructor parameter.
- i18n.js, string replacement: `String.prototype.replace` treats `$` sequences in the replacement text specially; here the text is inserted literally. Parameter values are strings.
- I18nModel.Member: only objects have members. In JavaScript `t` also indexes a string it meets during the walk, so over `{x: 'abc'}` the key 'x.0' gives 'a' and 'x.length' gives 3; here both give the key back. Every key of the shipped tables holds a dot, so the first segment of a key never names a text there and no string is ever indexed.
- I18nModel.FillPlaceholders: the parameters are filled in the order given. JavaScript's `Object.keys` lists integer-like names first, in ascending order, then the others in insertion order; that reordering is not modelled.
- i18n.js, prototype keys: a language name such as 'toString' resolves to an inherited member in JavaScript, and so does a key segment met during the walk: `t('constructor')` returns the Object constructor function, while the model returns the key. Here only own keys count, for languages ('fr' and 'en') and for key segments alike.
- Trend, peak and period-comparison helpers: they are not part of the code modelled.

## Findings

| source | as written | input that shows it | evidently intended | confidence | as-written member | corrected member |
|---|---|---|---|---|---|---|
| src/static/assets/js/i18n.js:384-392 | `t` splits the key on '.' and walks the table one segment at a time, but the shipped tables are flat, with whole dotted keys such as 'nav.home' | `t('nav.home')` with language 'fr': the walk looks up 'nav', finds nothing and returns 'nav.home' | 'Accueil', the text stored under 'nav.home' | not executed | I18nModel.ShippedKeysUntranslated | I18nModel.FlatTranslateFindsShippedKeys |

The corrected reading is `I18nModel.FlatTranslate`, a lookup of the whole
key. `I18nModel.UndottedKeysAgree` shows it agrees with `t` on every key
without a dot. `I18nModel.FlatTranslateFindsShippedKeys` proves it finds the
French and English text of every shipped key. `I18nModel.I18n.T` keeps the
lookup as written.
