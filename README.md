# ntf-dashboard vote reconstruction and scrapers, in Dafny

ntf-dashboard follows a fan vote ("The Best Couple", YNA2025). The voting site publishes only each
couple's current share of the votes. Scrapers log in to the site, read the chart and the couple
list, and save one JSON snapshot per run. Two dashboards turn the series of snapshots into an
estimate of votes and money spent with the "cumulative gain only" rule:

- a rise of a candidate's share from `prev` to `curr` percent is worth `(curr - prev) / 100 * 100000`
  votes, so 1% is 1000 points;
- a fall is ignored;
- `prev` always becomes `curr`;
- a point costs 4 baht.

This project models that core:

- **Reconstruction** (`reconstruction.dfy`): one pure definition of the fold. `Gain`, `Credited`
  and `Points` give one candidate's points, and `Reconstruct` gives the ledger, one row per
  snapshot. The module also proves the fold's laws: monotonicity, gain only, per-candidate
  independence, telescoping, replay safety and independence from storage order.
- **DashboardFold** (`dashboard_fold.dfy`): `calculate_votes_and_money` of `dashboard.py` as
  methods with loops, each proved to compute the ledger. That covers loading, the code union, the
  nested crediting loops, the latest summary and the error results.
- **DashboardTwo** (`dashboard_two.dfy`): `reconstruct_votes` and `get_data` of `dashboard_two.py`.
  It covers the row loop, the summary ranking, the chart series, the per-record differences and
  the grouping of records by date.
- **TestCalc** (`test_calc.dfy`): the two folds of `test_calc.py`, both proved to compute the same
  totals, so on the same loaded snapshots in the same time order the difference the script
  reports is 0.
- **Transport** (`transport.dfy`): the HTTP session as a `Session` class. It keeps a script of
  outcomes and a log of requests. The module also defines the fetch-with-one-retry flow shared by
  every scraper and proves bounds on its logins and data GETs.
- **DashboardScraper**, **WebScraper**, **Yna2025Scraper** and **AutoPushScraper**: the four
  scraper classes, one file each. Each has an `isLoggedIn` field, `Login` and fetch methods, and
  its own login-success check.
- **VoteSummary** (`vote_summary.dfy`): the summary rows, which zip chart labels with
  percentages and couples and are stably sorted by share, and the `ranking` strings.
- **Packages** (`packages.dfy`): the greedy vote-package calculator in the dashboard page's
  script.
- **Sorting**, **Strings** and **Wrappers**: Python's stable `sort(key, reverse=True)`, string
  order and `sorted(set)`, ASCII `lower()`, and `Option`/`Result`.

Percentages and points are exact `real`s. The network is a `Session` whose answers are a script of
outcomes fixed in advance, and the HTML of a page arrives already extracted.

Three behaviours of the code:

- The first snapshot is credited in full, because `prev` starts at 0. A candidate at 10, 12.5 and
  then 11 percent has 10000, 12500 and 12500 points.
- A code missing from a snapshot reads as 0 and sets `prev` to 0. When it returns it is credited
  from 0 again.
- After a re-login the second data response is used without checking whether it bounced again.

## Model

| member | source | states |
|---|---|---|
| Reconstruction.Gain | dashboard.py:2114-2119 | the points added are never negative, are 0 exactly when the share did not rise, and are otherwise the rise times 1000 |
| Reconstruction.Credited | dashboard.py:2110-2132 | a candidate's cumulative points are never negative |
| Reconstruction.Column | dashboard.py:2111 | a candidate's column has one share per snapshot, and an absent code reads as 0 |
| Reconstruction.SumOverPoints | dashboard.py:2134 | summing a dict of cumulative points over the code list is the sum of each code's points |
| Reconstruction.UniverseSnoc | dashboard.py:2072 | one more snapshot adds exactly its own codes to the union of codes |
| Reconstruction.TracksStep | dashboard.py:2110-2132 | crediting a snapshot code by code moves the fold state from i snapshots to i+1 |
| Reconstruction.TracksStart | dashboard.py:2095-2096 | all codes at 0 points and 0 percent is the state before any snapshot |
| Reconstruction.SortByTime | dashboard.py:2086 | sorting by time is a permutation of the history |
| Reconstruction.EntryOf | dashboard.py:2124-2130 | the ledger row's entry for a code is that code's entry at that snapshot |
| Reconstruction.LastEntry | dashboard.py:2156 | the last ledger row holds every code's points after the whole history |
| Reconstruction.CreditedSnoc | dashboard.py:2116-2132 | one more share adds the gain over the previous share, and the previous share becomes the new one |
| Reconstruction.ColumnPrefix | dashboard.py:2100 | the column of the first k snapshots is the first k entries of the column |
| Reconstruction.LatestColumn | dashboard.py:2132 | the previous share after a history is that history's last share of the code, or 0 |
| Reconstruction.PointsStep | dashboard.py:2111-2132 | at snapshot i the points grow by exactly the gain from the previous raw share, which then becomes that snapshot's share |
| Reconstruction.PointsMonotone | dashboard.py:2115-2121 | cumulative points never decrease along the history |
| Reconstruction.CreditedTelescopes | dashboard.py:2110-2132 | a non-negative, non-decreasing series of shares is credited its last share times 1000 |
| Reconstruction.PointsTelescope | dashboard.py:2110-2132 | a candidate whose share never falls holds its latest share times 1000 points at every snapshot |
| Reconstruction.CreditedCoversNetRise | dashboard.py:2110-2132 | whatever the dips, the credited points are at least the last share times 1000 |
| Reconstruction.LedgerShape | dashboard.py:2100-2138 | one row per snapshot with its time; every row lists exactly the codes; money is points times 4; the row total is the sum of the codes' points |
| Reconstruction.LedgerMonotone | dashboard.py:2115-2121 | a code's cumulative points at row i+1 are at least those at row i |
| Reconstruction.LedgerGainOnly | dashboard.py:2115-2119 | points added at a row are 0 when the share did not rise and the rise times 1000 otherwise, and the points grow by exactly that |
| Reconstruction.LedgerIndependent | dashboard.py:2110-2132 | a code's ledger entries depend only on its own column of shares, not on the other codes or the code list |
| Reconstruction.ColumnsAgree | dashboard.py:2110-2132 | two histories with the same column for a code give it the same points and previous share |
| Reconstruction.SumPointsMonotone | dashboard.py:2134 | the sum of cumulative points never decreases from one snapshot to the next |
| Reconstruction.LedgerTotalMonotone | dashboard.py:2134-2136 | a row's total points are at least the previous row's |
| Reconstruction.EntryAtPrefix | dashboard.py:2100-2130 | an entry does not depend on the snapshots after it |
| Reconstruction.RowAtPrefix | dashboard.py:2100-2136 | a row does not depend on the snapshots after it |
| Reconstruction.ReconstructSnoc | dashboard.py:2138 | the ledger grows by one row per snapshot |
| Reconstruction.ReconstructPrefix | dashboard.py:2100-2138 | appending snapshots never changes the rows already derived |
| Reconstruction.SortByTimeAscending | dashboard.py:2086 | the sorted history is in ascending time |
| Reconstruction.SortByTimeIgnoresStorageOrder | dashboard.py:2034-2086 | snapshots with distinct times stored in any order sort to the same history |
| Reconstruction.UniversePermutation | dashboard.py:2044-2072 | the union of codes does not depend on the order of the snapshots |
| Reconstruction.ScenarioFirstSnapshotCredited | dashboard.py:2096-2132 | a candidate at 10, 12.5, 11 percent holds 10000, 12500, 12500 points |
| Reconstruction.ScenarioDipAndRecover | dashboard.py:2132 | 10, 8, 10 percent gives 12000 points: the recovery is credited again |
| Reconstruction.ScenarioAbsentCodeRestarts | dashboard.py:2111-2112 | a code at 10, absent, then 10 again is credited 20000 points |
| Reconstruction.ScenarioTwoCandidates | dashboard.py:2110-2132 | in a two-candidate history each candidate's points follow its own shares only |
| Reconstruction.TwoCandidateColumns | dashboard.py:2111 | the columns of the two-candidate history |
| DashboardFold.Loaded | dashboard.py:2048-2080 | the loaded history is no longer than the list of files |
| DashboardFold.TotalsOf | dashboard.py:2141-2147 | the latest summary has one item per code |
| DashboardFold.LoadedSnoc | dashboard.py:2048-2080 | each file adds its snapshot, or nothing when it fails to load |
| DashboardFold.SortedListDistinct | dashboard.py:2092 | `sorted(list(all_codes))` repeats no code and holds exactly the set |
| DashboardFold.EntryAtCredit | dashboard.py:2111-2130 | a ledger entry is the credit of the share against the previous share and the points so far |
| DashboardFold.CreditCode | dashboard.py:2111-2130 | the inner loop body for one code computes that code's ledger entry |
| DashboardFold.CreditSnapshot | dashboard.py:2110-2132 | the inner loop credits every code of the snapshot and leaves the fold state tracking one more snapshot |
| DashboardFold.CreditStepKeeps | dashboard.py:2110-2132 | crediting code j keeps the earlier codes credited and the later ones untouched |
| DashboardFold.LoadHistory | dashboard.py:2044-2080 | the loading loop returns the readable files' snapshots in file order and the union of their codes |
| DashboardFold.CreditTracks | dashboard.py:2110-2132 | crediting snapshot i to a state that tracks i snapshots yields a state that tracks i+1 |
| DashboardFold.RowOfState | dashboard.py:2104-2136 | the row built from the fold state is the ledger row |
| DashboardFold.HourData | dashboard.py:2100-2138 | one pass of the main loop appends the ledger row of that snapshot |
| DashboardFold.FoldHistory | dashboard.py:2094-2138 | the main loop returns exactly the ledger and every code's final points |
| DashboardFold.LatestSummary | dashboard.py:2141-2149 | the latest summary is the per-code totals stably sorted by points, highest first |
| DashboardFold.ReportOfParts | dashboard.py:2156-2169 | the report assembled from the loop results is the report of the loaded snapshots |
| DashboardFold.CalculateVotesAndMoney | dashboard.py:2027-2172 | no files gives the no-file error; files none of which load give the no-data error; otherwise the report of the loaded snapshots |
| DashboardFold.LoadedKeepsReadable | dashboard.py:2048-2080 | a snapshot is loaded exactly when some file holds it; failing files are skipped |
| DashboardFold.ReportLedger | dashboard.py:2086-2138 | one ledger row per loaded snapshot, in ascending time, each listing every code seen in any snapshot |
| DashboardFold.ReportCodes | dashboard.py:2092 | `codes` holds every code seen, in strictly ascending string order |
| DashboardFold.ReportSummary | dashboard.py:2141-2149 | the latest summary is sorted by points, highest first, and is a permutation of the per-code totals, each code with its final points and 4 baht per point |
| DashboardFold.ReportTotals | dashboard.py:2156-2163 | the grand totals are those of the last ledger row, and money is points times 4 |
| DashboardFold.ReportIgnoresFileOrder | dashboard.py:2034-2086 | the order of the data files and the failing files do not change the report |
| DashboardTwo.Snaps | dashboard_two.py:55-57 | the frame's rows, one snapshot each |
| DashboardTwo.History | dashboard_two.py:84-111 | the history has one step per row |
| DashboardTwo.HistorySnoc | dashboard_two.py:111 | each row appends its step to the history |
| DashboardTwo.FieldsOfState | dashboard_two.py:103-106 | the step built from the fold state (time, candidate fields, sum of cumulative votes) is the step of that row |
| DashboardTwo.CandidateFields | dashboard_two.py:103-106 | the candidate fields recorded from the fold state (votes, votes times 4, name, share) are the step's candidate fields |
| DashboardTwo.CreditRow | dashboard_two.py:89-106 | the candidate loop credits every candidate's rise, remembers its share and records its fields |
| DashboardTwo.RowStepKeeps | dashboard_two.py:89-106 | processing candidate j keeps the earlier candidates processed and the later ones pending |
| DashboardTwo.StepData | dashboard_two.py:84-111 | one pass of the row loop credits the row and appends its step |
| DashboardTwo.ReconstructVotes | dashboard_two.py:60-113 | an empty frame gives no history and no candidates; otherwise one step per row and the frame's candidates |
| DashboardTwo.HistoryMatchesLedger | dashboard_two.py:93-109 | each step's votes, shares and total are dashboard.py's ledger over the same snapshots, and cost is votes times 4 |
| DashboardTwo.HistoryMonotone | dashboard_two.py:95-109 | votes never decrease from one step to the next, for each candidate and for the total |
| DashboardTwo.Items | dashboard_two.py:131-139 | one summary item per candidate, in candidate order, before sorting |
| DashboardTwo.CodesOfItems | dashboard_two.py:132-139 | the unsorted items' codes are the candidates |
| DashboardTwo.SummaryIsRanking | dashboard_two.py:130-140 | the summary lists every candidate exactly once, highest votes first, each with its latest fields |
| DashboardTwo.Series | dashboard_two.py:146-148 | one series per candidate, each as long as the history |
| DashboardTwo.SeriesAt | dashboard_two.py:148 | a series point is the candidate's cumulative votes after that many rows |
| DashboardTwo.SeriesNondecreasing | dashboard_two.py:146-148 | every chart series is the cumulative votes and never goes down |
| DashboardTwo.FullRecords | dashboard_two.py:151-194 | one full record per step |
| DashboardTwo.CandidateDiffs | dashboard_two.py:168-193 | the candidate loop gives each candidate its differences against the previous step, or 0 without one |
| DashboardTwo.BuildFullRecords | dashboard_two.py:151-194 | the record loop builds exactly the full records |
| DashboardTwo.FirstRecordHasNoDiff | dashboard_two.py:154-184 | the first record shows no difference, and its total change is its whole total |
| DashboardTwo.DiffsAreGains | dashboard_two.py:173-180 | a later record's vote difference is the votes credited at that row, never negative, with cost difference 4 times it and a total change never negative |
| DashboardTwo.RecordDiffs | dashboard_two.py:173-180 | a later record's vote and cost differences are those of the ledger's points between two rows |
| DashboardTwo.GroupsOf | dashboard_two.py:204-212 | one group per distinct date |
| DashboardTwo.DaysAndOfDay | dashboard_two.py:197-202 | a date is a key exactly when some record falls on it, and a key's list holds exactly the records of that date |
| DashboardTwo.DaysDistinct | dashboard_two.py:200-201 | no date is a key twice |
| DashboardTwo.OfDaySnoc | dashboard_two.py:198-202 | a record is appended to its own date's list, and a new date is added after the others |
| DashboardTwo.GroupedSnoc | dashboard_two.py:198-202 | adding a record appends it to its date's list, opening the list when the date is new |
| DashboardTwo.FillGroups | dashboard_two.py:197-202 | the grouping loop builds the date map and its keys in insertion order |
| DashboardTwo.FillStep | dashboard_two.py:199-202 | one pass of the grouping loop on the map and the key list |
| DashboardTwo.GroupsSnoc | dashboard_two.py:206-212 | each date appends its group |
| DashboardTwo.GroupByDate | dashboard_two.py:197-212 | the grouping and its conversion give exactly the groups, newest date first |
| DashboardTwo.GroupsDatesDescending | dashboard_two.py:206 | groups are newest date first, with no date twice |
| DashboardTwo.DistinctSortedStrictly | dashboard_two.py:206 | sorting distinct dates newest first makes them strictly decreasing |
| DashboardTwo.GroupRecordsAscending | dashboard_two.py:208 | each group holds its records in ascending time |
| DashboardTwo.GroupsPartition | dashboard_two.py:197-212 | a group holds exactly the records of its date, each as often as in the input |
| DashboardTwo.EveryRecordGrouped | dashboard_two.py:197-212 | every record lies in the group of its own date |
| DashboardTwo.Labels | dashboard_two.py:144 | one chart label per step |
| DashboardTwo.ViewOfParts | dashboard_two.py:128-212 | the view assembled from summary, series, records and groups is the view of the history |
| DashboardTwo.BuildView | dashboard_two.py:128-212 | the part after the empty check builds exactly that view |
| DashboardTwo.GetData | dashboard_two.py:120-292 | an empty history gives the "No data" error; otherwise the view of the frame |
| DashboardTwo.ViewTotals | dashboard_two.py:289-290 | the total votes are the sum of every candidate's final points, money is votes times 4, and there is one label per row |
| DashboardTwo.LastStepTotal | dashboard_two.py:109-128 | the last step's total is the sum of every candidate's final points |
| DashboardTwo.ViewFromTotals | dashboard_two.py:128-290 | the view's totals are the latest step's |
| TestCalc.Totals | test_calc.py:42-45 | one key per code seen in any snapshot, and every value is non-negative |
| TestCalc.PandasRow | test_calc.py:49-57 | one row of the pandas fold credits each candidate's rise and remembers its share, an absent share reading as 0 |
| TestCalc.PlainRow | test_calc.py:99-107 | one snapshot of the plain fold does the same |
| TestCalc.SteppedTracks | test_calc.py:49-57 | a credited snapshot advances the fold state by one snapshot |
| TestCalc.TracksTotals | test_calc.py:95-109 | a fold state over the whole history keyed by exactly the codes is the totals map |
| TestCalc.PandasFold | test_calc.py:45-57 | the row loop leaves every candidate's total and previous share after the whole frame |
| TestCalc.CalcDashboardTwo | test_calc.py:13-59 | the pandas method returns the totals of the loaded snapshots, or `{}` when none load |
| TestCalc.PlainFold | test_calc.py:95-107 | the snapshot loop leaves every code's total and previous share after the whole history |
| TestCalc.CalcDashboard | test_calc.py:63-109 | the plain method returns the same totals |
| TestCalc.Difference | test_calc.py:112-128 | on the same loaded snapshots in the same time order, the difference the script reports between the two methods is 0 |
| TestCalc.TotalsTelescope | test_calc.py:54-57 | a candidate whose share never falls and is never negative ends with its last share times 1000 |
| TestCalc.TotalsCoverLastShare | test_calc.py:103-107 | every total is at least the candidate's last share times 1000 |
| TestCalc.TotalsMatchLedger | test_calc.py:95-109 | the totals are the last row of dashboard.py's ledger over the same snapshots |
| Sorting.Insert | dashboard.py:2149 | inserting keeps every element and adds one |
| Sorting.SortedCons | dashboard.py:2149 | an element whose key is at least every other key can lead a sorted list |
| Sorting.InsertSorted | dashboard.py:2149 | inserting into a sorted list keeps it sorted |
| Sorting.SortDesc | dashboard.py:2149 | the sort is a permutation |
| Sorting.SortDescSorted | dashboard.py:2149 | the sort's result is in non-increasing key order |
| Sorting.Project | dashboard_two.py:134 | the projected list has one field per element, each the field of the element at the same position |
| Sorting.ProjectInsert | dashboard_two.py:140 | inserting an element adds exactly its field to the projected fields, wherever it lands |
| Sorting.ProjectSort | dashboard_two.py:140 | sorting keeps the multiset of projected fields, so a sorted summary keeps its codes |
| Sorting.WithKeyCons | yna2025_scraper.py:146 | the elements with one key, of a list with one more element |
| Sorting.WithKeyInsert | yna2025_scraper.py:146 | an inserted element goes ahead of every element with the same key |
| Sorting.SortDescIsStable | yna2025_scraper.py:146 | elements with equal keys keep their original order |
| Sorting.HeadHasMaxKey | dashboard.py:2149 | the head of a sorted list has the largest key |
| Sorting.SortedUnique | dashboard.py:2149 | two sorted permutations of each other with distinct keys are equal |
| Sorting.SortDescIgnoresInputOrder | dashboard.py:2149 | with distinct keys the sort does not depend on the input order |
| Strings.BeforeAsymmetric | dashboard.py:2092 | string order is asymmetric |
| Strings.BeforeTransitive | dashboard.py:2092 | string order is transitive |
| Strings.BeforeTotal | dashboard.py:2092 | two different strings are ordered one way or the other |
| Strings.LeastExists | dashboard.py:2092 | a non-empty set of codes has a least element |
| Strings.LeastUnique | dashboard.py:2092 | that least element is unique |
| Strings.SortedList | dashboard.py:2092 | `sorted(list(s))` holds exactly the members of s, once each |
| Strings.SortedListAscending | dashboard.py:2092 | `sorted(list(s))` is strictly ascending |
| Strings.Lower | dashboard.py:65 | lowercasing keeps the length |
| Transport.Session.constructor | dashboard.py:29 | a new session has the given script and an empty request log |
| Transport.Session.Send | dashboard.py:56-83 | sending logs the request and answers with the next outcome of the script |
| Transport.GetsAppend | dashboard.py:83-89 | the data GETs of two request lists add up |
| Transport.FetchLogins | dashboard.py:78-89 | a fetch logs in at most twice, and at most once when already logged in |
| Transport.RetryGets | dashboard.py:83-89 | once logged in, a fetch sends one or two data GETs |
| Transport.FetchGets | dashboard.py:78-89 | at most two data GETs, and none when the first login fails |
| Transport.FetchLoggedIn | dashboard.py:78-89 | a parsed response means the scraper ends logged in; a failed re-login leaves it logged out |
| Transport.SecondResponseUnchecked | dashboard.py:85-89 | after a re-login the second response is parsed even when it bounced to the login page again |
| DashboardScraper.LoginOf | dashboard.py:47-75 | a login sends at most two requests |
| DashboardScraper.VoteScraper.constructor | dashboard.py:28-33 | a new scraper is not logged in and holds the session and the credentials |
| DashboardScraper.VoteScraper.Login | dashboard.py:47-75 | the login sends the requests of the login definition and sets the flag only on success |
| DashboardScraper.VoteScraper.Retrieve | dashboard.py:82-89 | once logged in, the data GET with one re-login and one retry on a bounce |
| DashboardScraper.VoteScraper.FetchPage | dashboard.py:77-89 | the requests of a fetch, from either state of the flag |
| DashboardScraper.VoteScraper.LoginThenRetrieve | dashboard.py:78-89 | when not logged in, log in first and fetch only on success |
| DashboardScraper.VoteScraper.FetchVoteData | dashboard.py:77-126 | the fetch returns the result built from the data page it reached, or nothing; the flag and the requests follow the fetch flow |
| DashboardScraper.BuildResult | dashboard.py:97-119 | the result holds the summary only when couples were found |
| DashboardScraper.NoCredentialsNoRequest | dashboard.py:47-52 | with a credential missing, the fetch returns nothing and sends no request |
| DashboardScraper.FetchBounds | dashboard.py:77-89 | at most two logins and two data GETs per fetch, and none of the data when the first login fails |
| DashboardScraper.LoginSendsNoDataGet | dashboard.py:56-63 | a login never fetches the data page |
| WebScraper.PageUrl | scraper.py:68 | the page fetched for hidden fields is the given URL, else the login page, else the login action |
| WebScraper.HiddenFields | scraper.py:74-86 | the hidden-input loop and the meta override build the csrf field map |
| WebScraper.HiddenKeys | scraper.py:77-81 | a name is a key exactly when some named input carries it |
| WebScraper.HiddenLastWins | scraper.py:77-81 | the last input with a name gives that name its value |
| WebScraper.MetaDecidesToken | scraper.py:84-86 | a csrf meta tag decides `_token` whatever the inputs say; without one the map is the inputs' |
| WebScraper.PayloadFields | scraper.py:107-111 | the payload holds both credential fields and the hidden fields, and a hidden field overrides a credential of the same name |
| WebScraper.InvalidPasswordFails | scraper.py:152-158 | a response at the login page with no session cookie that says "Invalid password" is a failed login |
| WebScraper.LoginSucceededCases | scraper.py:141-160 | leaving the login pages succeeds; a session cookie succeeds; otherwise success means no error message on the page |
| WebScraper.LoginOf | scraper.py:95-132 | a login sends exactly the form GET and the POST |
| WebScraper.Scraper.constructor | scraper.py:35-49 | a new scraper is not logged in and holds the session and the configuration |
| WebScraper.Scraper.GetCsrfToken | scraper.py:64-93 | one GET of the form page; its hidden fields, or none after an error |
| WebScraper.Scraper.CheckLoginSuccess | scraper.py:134-160 | the keyword loop decides exactly the login-success predicate |
| WebScraper.Scraper.Login | scraper.py:95-132 | the login sends the requests of the login definition and sets the flag only on success |
| WebScraper.Scraper.Retrieve | scraper.py:169-182 | once logged in, the data GET with one re-login and one retry, and an error status gives nothing |
| WebScraper.Scraper.FetchData | scraper.py:162-195 | the fetch returns the response its data is extracted from, or nothing, following the fetch flow |
| WebScraper.Scraper.LoginThenRetrieve | scraper.py:164-182 | when not logged in, log in first and fetch only on success |
| WebScraper.LoginSendsNoDataGet | scraper.py:104-119 | a login does not fetch the data page when the form is not the data page |
| WebScraper.FetchBounds | scraper.py:162-182 | at most two logins and two data GETs per fetch, and none of the data when the first login fails |
| WebScraper.ErrorStatusGivesNothing | scraper.py:182-195 | an error status on the data page gives no data and leaves the scraper logged in |
| Yna2025Scraper.Payload | yna2025_scraper.py:63-66 | the form holds the configured username and password fields |
| Yna2025Scraper.AcceptsMoreThanDashboard | yna2025_scraper.py:76-88 | this login check accepts whatever dashboard.py's accepts, and more exactly the URLs naming both login and dashboard without cookies |
| Yna2025Scraper.LoginOf | yna2025_scraper.py:53-92 | a login sends one or two requests, and two when it succeeds |
| Yna2025Scraper.Scraper.constructor | yna2025_scraper.py:34-39 | a new scraper is not logged in and holds the session and the configuration |
| Yna2025Scraper.Scraper.Login | yna2025_scraper.py:53-92 | the login sends the requests of the login definition and sets the flag only on success |
| Yna2025Scraper.Scraper.Retrieve | yna2025_scraper.py:101-110 | once logged in, the data GET with one re-login and one retry on a bounce |
| Yna2025Scraper.Scraper.FetchPage | yna2025_scraper.py:96-110 | the requests of a fetch, from either state of the flag |
| Yna2025Scraper.Scraper.LoginThenRetrieve | yna2025_scraper.py:96-110 | when not logged in, log in first and fetch only on success |
| Yna2025Scraper.Scraper.FetchVoteData | yna2025_scraper.py:94-157 | the fetch returns the result built from the data page it reached, or nothing |
| Yna2025Scraper.BuildResult | yna2025_scraper.py:122-150 | the part after the requests builds exactly the result of the page |
| Yna2025Scraper.ResultShape | yna2025_scraper.py:131-150 | summary and ranking appear together, exactly when couples are listed, one entry and one line per label |
| Yna2025Scraper.LoginSendsNoDataGet | yna2025_scraper.py:60-73 | a login does not fetch the data page |
| Yna2025Scraper.FetchBounds | yna2025_scraper.py:96-110 | at most two logins and two data GETs per fetch, and none of the data when the first login fails |
| AutoPushScraper.PushLoginOf | scraper_auto_push.py:36-50 | a login sends one or two requests |
| AutoPushScraper.LoginLikeDashboard | scraper_auto_push.py:36-50 | with both credentials the login is dashboard.py's; with one missing it still GETs the login page, where dashboard.py's sends nothing |
| AutoPushScraper.PushScraper.constructor | scraper_auto_push.py:29-31 | a new scraper is not logged in and holds the session and the credentials |
| AutoPushScraper.PushScraper.Login | scraper_auto_push.py:36-50 | the login sends the requests of the login definition and sets the flag only on success |
| AutoPushScraper.PushScraper.Retrieve | scraper_auto_push.py:56-61 | once logged in, the data GET with one re-login and one retry on a bounce |
| AutoPushScraper.PushScraper.FetchPage | scraper_auto_push.py:53-61 | the requests of a fetch, from either state of the flag |
| AutoPushScraper.PushScraper.LoginThenRetrieve | scraper_auto_push.py:53-61 | when not logged in, log in first and fetch only on success |
| AutoPushScraper.PushScraper.FetchData | scraper_auto_push.py:52-101 | the fetch returns the result built from the data page it reached, or nothing |
| AutoPushScraper.SummaryAlwaysPresent | scraper_auto_push.py:87-96 | the summary is always present, with one entry per label and the labels as its codes; without couple info every name and every series is empty |
| AutoPushScraper.PushLoginSendsNoDataGet | scraper_auto_push.py:39-41 | a login does not fetch the data page |
| AutoPushScraper.PushFetchBounds | scraper_auto_push.py:53-61 | at most two logins and two data GETs per fetch, and none of the data when the first login fails |
| VoteSummary.Items | yna2025_scraper.py:136-143 | one entry per label, in label order |
| VoteSummary.BuildSummary | yna2025_scraper.py:132-146 | the append loop and the in-place sort build exactly the summary |
| VoteSummary.CodesOfItems | yna2025_scraper.py:136-139 | the unsorted entries' codes are the labels |
| VoteSummary.SummaryIsRanking | yna2025_scraper.py:132-146 | one entry per label, sorted by share from the highest |
| VoteSummary.SummaryEntries | yna2025_scraper.py:136-143 | every entry is a label zipped with its share and its couple's names and series |
| VoteSummary.SummaryIsStable | yna2025_scraper.py:146 | entries with equal shares keep the order of their labels |
| VoteSummary.ItemDefaults | yna2025_scraper.py:137-142 | a label past the end of the data gets 0 percent; a label without couple info gets empty names and series |
| VoteSummary.NatText | yna2025_scraper.py:148 | a position is written as a non-empty run of decimal digits |
| VoteSummary.NatTextValue | yna2025_scraper.py:148 | those digits read back as the position |
| VoteSummary.Ranking | yna2025_scraper.py:147-150 | one ranking line per summary entry |
| VoteSummary.RankingLines | yna2025_scraper.py:147-150 | line i starts with `#` and the position i+1, and names the entry's code and names |
| Packages.BuyAllUnfold | dashboard.py:1874-1892 | one pass of the package loop |
| Packages.BuyPackages | dashboard.py:1874-1892 | the package loop computes the greedy plan over the catalog |
| Packages.CalculatePackages | dashboard.py:1860-1892 | a budget that is not positive gives the alert; otherwise the greedy plan |
| Packages.BuyAllAccounted | dashboard.py:1874-1892 | spent plus remaining is the budget, and the totals are the sums of the purchase lines |
| Packages.BuyAllLeftover | dashboard.py:1875 | what is left is less than the last package's price |
| Packages.BuyAllExtends | dashboard.py:1876-1888 | buying never adds money back and never removes a purchase |
| Packages.BuyAllNothing | dashboard.py:1876 | a budget below every price buys nothing |
| Packages.GreedyAccounts | dashboard.py:1853-1892 | the plan's accounts balance and less than 6 baht is left |
| Packages.GreedyBuysNothing | dashboard.py:1853-1892 | nothing is bought exactly when the budget is under 6 baht |
| Packages.BuyOne | dashboard.py:1875-1890 | a budget between one and two prices of a package buys exactly one of it |
| Packages.GreedyOneOfEach | dashboard.py:1853-1892 | 4506 baht buys one of each package for 1111 points, with nothing left |

## Left out

- File loading, JSON parsing and timestamp handling are not modelled. A data file is a snapshot,
  or `None` when it fails to load. `fromisoformat`, `strftime`, `strptime` and the filename-stem
  fallback are replaced by an integer time that orders the snapshots, and a date is a function of
  that time.
- Python `round` is not modelled. The dashboards round points, money, votes and costs for display,
  and `dashboard_two.py` takes the record differences (lines 169-180) and sorts the summary (line
  140) on rounded votes. The model uses exact `real`s throughout.
- DashboardFold.LatestSummary: sorts by exact points, not by the rounded points of
  `dashboard.py:2145-2149`; the orders differ only when two totals round to the same integer
  (totals at most one point apart), where the code keeps code order and the model orders by
  exact points.
- TestCalc.Difference: both methods are fed one shared list of loaded snapshots in one time
  order, so 0 holds on those. The two loaders of `test_calc.py` differ on the same files: a file
  without `timestamp` is dropped or ordered by its file name (lines 19-25) in one and kept with
  `''`, which sorts first (lines 74 and 92), in the other; an item without `code` or
  `percentage` drops the whole file (lines 29-30) in one and defaults to `''`/0 (lines 80-81) in
  the other; one sorts parsed datetimes with pandas' non-stable sort (lines 39-40), the other
  stable-sorts the raw strings (line 92); codes added at line 83 before an exception in the same
  file stay in the second result at 0. None of these loader differences is modelled.
- DashboardTwo.RecordDiffs: differences are of exact votes and costs, not of their rounded values.
- pandas is not modelled. In `dashboard_two.py` a candidate absent from a row is NaN, which would
  poison its previous share. The model reads an absent share as 0, as `test_calc.py:51-52` and
  `dashboard.py:2111` do. The frame's column order is taken as given.
- The projection at `dashboard_two.py:214-279` depends on the clock and float rates and is not
  modelled. Neither are the `timestamp` fields the endpoints add from `datetime.now()`.
- HTML and regular expressions are not modelled: BeautifulSoup, `_extract_chart_data`,
  `_extract_couple_names`, `_extract_category`, `scraper.py`'s `_extract_data` and `_parse_table`,
  and the inline parsing at `scraper_auto_push.py:63-85`. A page arrives as already extracted
  chart data, couples, hidden inputs, csrf meta tag and text.
- Python's float-to-string conversion in the ranking lines is a parameter `show`. Past the end
  of the data the source's percentage is the int `0`, which prints "0", while a float share
  prints "0.0"; a single `show: real -> string` cannot tell the two apart.
- `lower()` is modelled on ASCII letters only; Thai text has no case.
- The cookie jar is the set of cookie names the response leaves in the session.
- A network failure is a `NetworkError` outcome of the session's script. Other exceptions are not
  modelled: a missing configuration key or a malformed page.
- Request headers, timeouts and `output_dir` creation are not modelled.
- Credentials are constructor parameters: the environment variables of `dashboard.py:41-45`, the
  configuration of `yna2025_scraper.py` and `scraper.py`, and the CONFIG of `scraper_auto_push.py`.
- Not modelled: the Flask routes and templates, the page's other scripts, `check_api.py`, `run.py`,
  `save_data`, `get_latest_data`, `get_all_history`, `run_job`, `run_once`, `run_scheduled`,
  `scraper_loop`, `git_push`, logging and printing.
- The package calculator's `parseInt(...) || 0` is not modelled; the budget is the parsed integer.
  The result display is not modelled either.
- Packages.GreedyOneOfEach: states the quantities, total points and leftover for one budget, not
  the package names of the lines.
