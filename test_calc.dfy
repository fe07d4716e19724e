/** test_calc.py: two more copies of the cumulative-gain fold, one in the style of dashboard_two.py
    (`calc_dashboard_two`) and one in the style of dashboard.py (`calc_dashboard`), each returning
    the final points of every code, and a comparison of the two. Both are proved to compute Totals,
    so they agree on every code. */
module TestCalc {
  import opened Wrappers
  import opened Strings
  import opened Reconstruction
  import opened DashboardFold

  /** What both functions return for the loaded snapshots: one key per code observed in any snapshot,
      mapped to its points after the time-ordered history. */
  function Totals(loaded: seq<Snapshot>): (t: map<Code, real>)
    ensures t.Keys == Universe(loaded)
    ensures forall c :: c in t ==> t[c] >= 0.0
  {
    map c | c in Universe(loaded) :: Points(SortByTime(loaded), c)
  }

  /** Code `c` has been credited for `snap`: its points grew by the gain from `prev[c]` and its
      previous percentage is now the snapshot's (0 when absent). */
  predicate Stepped(snap: Snapshot, c: Code, cumulative: map<Code, real>, prev: map<Code, real>,
                    cumulative': map<Code, real>, prev': map<Code, real>)
  {
    c in cumulative && c in prev && c in cumulative' && c in prev'
    && cumulative'[c] == cumulative[c] + Gain(prev[c], PctOf(snap.pcts, c))
    && prev'[c] == PctOf(snap.pcts, c)
  }

  /** Code `c` is still as it was before the snapshot. */
  predicate Untouched(c: Code, cumulative: map<Code, real>, prev: map<Code, real>,
                      cumulative': map<Code, real>, prev': map<Code, real>)
  {
    c in cumulative && c in prev && c in cumulative' && c in prev'
    && cumulative'[c] == cumulative[c] && prev'[c] == prev[c]
  }

  /** The inner loop of `calc_dashboard_two` (test_calc.py:49-57): a missing percentage reads as 0,
      the change from the previous percentage is credited when positive, and the previous
      percentage is overwritten. */
  method PandasRow(snap: Snapshot, candidates: seq<Code>, cumulative: map<Code, real>, prev: map<Code, real>)
    returns (cumulative': map<Code, real>, prev': map<Code, real>)
    requires Distinct(candidates)
    requires forall c :: c in candidates ==> c in cumulative && c in prev
    ensures forall c :: c in candidates ==> Stepped(snap, c, cumulative, prev, cumulative', prev')
    ensures cumulative'.Keys == cumulative.Keys && prev'.Keys == prev.Keys
  {
    cumulative', prev' := cumulative, prev;
    for j := 0 to |candidates|
      invariant forall k :: 0 <= k < j ==> Stepped(snap, candidates[k], cumulative, prev, cumulative', prev')
      invariant forall k :: j <= k < |candidates| ==> Untouched(candidates[k], cumulative, prev, cumulative', prev')
      invariant cumulative'.Keys == cumulative.Keys && prev'.Keys == prev.Keys
    {
      var c := candidates[j];
      var pct := if c in snap.pcts then snap.pcts[c] else 0.0;
      var pctChange := pct - prev'[c];
      if pctChange > 0.0 {
        var votesAdded := (pctChange / 100.0) * BaseTotalVotes;
        cumulative' := cumulative'[c := cumulative'[c] + votesAdded];
      }
      prev' := prev'[c := pct];
    }
    forall c | c in candidates ensures Stepped(snap, c, cumulative, prev, cumulative', prev') {
      var k :| 0 <= k < |candidates| && candidates[k] == c;
    }
  }

  /** The inner loop of `calc_dashboard` (test_calc.py:99-107): `curr > prev` is credited with
      `(curr - prev) / 100 * BASE_TOTAL_VOTES`, then `prev_pct[code] = curr`. */
  method PlainRow(snap: Snapshot, codes: seq<Code>, cumulative: map<Code, real>, prev: map<Code, real>)
    returns (cumulative': map<Code, real>, prev': map<Code, real>)
    requires Distinct(codes)
    requires forall c :: c in codes ==> c in cumulative && c in prev
    ensures forall c :: c in codes ==> Stepped(snap, c, cumulative, prev, cumulative', prev')
    ensures cumulative'.Keys == cumulative.Keys && prev'.Keys == prev.Keys
  {
    cumulative', prev' := cumulative, prev;
    for j := 0 to |codes|
      invariant forall k :: 0 <= k < j ==> Stepped(snap, codes[k], cumulative, prev, cumulative', prev')
      invariant forall k :: j <= k < |codes| ==> Untouched(codes[k], cumulative, prev, cumulative', prev')
      invariant cumulative'.Keys == cumulative.Keys && prev'.Keys == prev.Keys
    {
      var code := codes[j];
      var curr := PctOf(snap.pcts, code);
      var before := if code in prev' then prev'[code] else 0.0;
      if curr > before {
        var delta := curr - before;
        var pointsAdded := (delta / 100.0) * BaseTotalVotes;
        cumulative' := cumulative'[code := cumulative'[code] + pointsAdded];
      }
      prev' := prev'[code := curr];
    }
    forall c | c in codes ensures Stepped(snap, c, cumulative, prev, cumulative', prev') {
      var k :| 0 <= k < |codes| && codes[k] == c;
    }
  }

  /** A credited snapshot advances the fold state by one snapshot. */
  lemma SteppedTracks(h: seq<Snapshot>, i: nat, codes: seq<Code>, cumulative: map<Code, real>, prev: map<Code, real>,
                      cumulative': map<Code, real>, prev': map<Code, real>)
    requires i < |h| && Tracks(cumulative, prev, h[..i], codes)
    requires forall c :: c in codes ==> Stepped(h[i], c, cumulative, prev, cumulative', prev')
    ensures Tracks(cumulative', prev', h[..i + 1], codes)
  {
    TracksStep(h, i, codes, cumulative, prev, cumulative', prev');
  }

  /** A fold state over all of `h` whose keys are exactly the codes is the totals map. */
  lemma TracksTotals(loaded: seq<Snapshot>, codes: seq<Code>, cumulative: map<Code, real>, prev: map<Code, real>)
    requires (set c | c in codes) == Universe(loaded) && cumulative.Keys == Universe(loaded)
    requires Tracks(cumulative, prev, SortByTime(loaded), codes)
    ensures cumulative == Totals(loaded)
  {
  }

  /** The row loop of `calc_dashboard_two` (test_calc.py:45-57), from every candidate at 0. */
  method PandasFold(df: seq<Snapshot>, candidates: seq<Code>) returns (cumulativeVotes: map<Code, real>, prevPct: map<Code, real>)
    requires Distinct(candidates)
    ensures Tracks(cumulativeVotes, prevPct, df, candidates)
    ensures cumulativeVotes.Keys == set c | c in candidates
  {
    cumulativeVotes := map c | c in candidates :: 0.0;
    prevPct := map c | c in candidates :: 0.0;
    TracksStart(df, candidates);
    for i := 0 to |df|
      invariant Tracks(cumulativeVotes, prevPct, df[..i], candidates)
      invariant cumulativeVotes.Keys == set c | c in candidates
      invariant prevPct.Keys == set c | c in candidates
    {
      var cumulative', prev' := PandasRow(df[i], candidates, cumulativeVotes, prevPct);
      SteppedTracks(df, i, candidates, cumulativeVotes, prevPct, cumulative', prev');
      cumulativeVotes, prevPct := cumulative', prev';
    }
    assert df[..|df|] == df;
  }

  /** `calc_dashboard_two` (test_calc.py:13-59) over the readable files: `{}` when there are no
      records, otherwise the fold over the time-sorted rows. */
  method CalcDashboardTwo(files: seq<Option<Snapshot>>) returns (cumulativeVotes: map<Code, real>)
    ensures cumulativeVotes == Totals(Loaded(files))
  {
    var records, seen := LoadHistory(files);
    if records == [] {
      return map[];
    }
    var df := SortByTime(records);
    var candidates := SortedList(seen);
    SortedListDistinct(seen);
    var prevPct;
    cumulativeVotes, prevPct := PandasFold(df, candidates);
    TracksTotals(records, candidates, cumulativeVotes, prevPct);
  }

  /** The snapshot loop of `calc_dashboard` (test_calc.py:95-107), from every code at 0. */
  method PlainFold(history: seq<Snapshot>, codes: seq<Code>) returns (cumulativePoints: map<Code, real>, prevPct: map<Code, real>)
    requires Distinct(codes)
    ensures Tracks(cumulativePoints, prevPct, history, codes)
    ensures cumulativePoints.Keys == set c | c in codes
  {
    cumulativePoints := map c | c in codes :: 0.0;
    prevPct := map c | c in codes :: 0.0;
    TracksStart(history, codes);
    for i := 0 to |history|
      invariant Tracks(cumulativePoints, prevPct, history[..i], codes)
      invariant cumulativePoints.Keys == set c | c in codes
      invariant prevPct.Keys == set c | c in codes
    {
      var cumulative', prev' := PlainRow(history[i], codes, cumulativePoints, prevPct);
      SteppedTracks(history, i, codes, cumulativePoints, prevPct, cumulative', prev');
      cumulativePoints, prevPct := cumulative', prev';
    }
    assert history[..|history|] == history;
  }

  /** `calc_dashboard` (test_calc.py:62-109): the readable files sorted by raw timestamp, the sorted
      union of codes, and the fold over the history. */
  method CalcDashboard(files: seq<Option<Snapshot>>) returns (cumulativePoints: map<Code, real>)
    ensures cumulativePoints == Totals(Loaded(files))
  {
    var historyData, allCodes := LoadHistory(files);
    var history := SortByTime(historyData);
    var codes := SortedList(allCodes);
    SortedListDistinct(allCodes);
    var prevPct;
    cumulativePoints, prevPct := PlainFold(history, codes);
    TracksTotals(historyData, codes, cumulativePoints, prevPct);
  }

  /** `result.get(code, 0)`. */
  function Get(result: map<Code, real>, code: Code): real
  {
    if code in result then result[code] else 0.0
  }

  /** The script's comparison (test_calc.py:112-128): run both and print the difference for a code;
      on the same loaded snapshots in the same time order the difference is always 0. */
  method Difference(files: seq<Option<Snapshot>>, code: Code) returns (difference: real)
    ensures difference == 0.0
  {
    var result1 := CalcDashboardTwo(files);
    var result2 := CalcDashboard(files);
    difference := Get(result1, code) - Get(result2, code);
  }

  /** Telescoping: a candidate whose percentages never fall, and are never negative, ends with its last
      percentage times 1000 points. */
  lemma TotalsTelescope(loaded: seq<Snapshot>, c: Code)
    requires c in Universe(loaded)
    requires forall i :: 0 <= i < |loaded| ==> 0.0 <= PctOf(SortByTime(loaded)[i].pcts, c)
    requires forall i, j :: 0 <= i <= j < |loaded| ==> PctOf(SortByTime(loaded)[i].pcts, c) <= PctOf(SortByTime(loaded)[j].pcts, c)
    ensures Totals(loaded)[c] == LastPct(SortByTime(loaded), c) * PointsPerPercent
  {
    var h := SortByTime(loaded);
    var col := Column(h, c);
    CreditedTelescopes(col);
    LatestColumn(h, c);
  }

  /** Whatever the percentages, a candidate's total covers its last percentage times 1000. */
  lemma TotalsCoverLastShare(loaded: seq<Snapshot>, c: Code)
    requires c in Universe(loaded)
    ensures Totals(loaded)[c] >= LastPct(SortByTime(loaded), c) * PointsPerPercent
  {
    CreditedCoversNetRise(Column(SortByTime(loaded), c));
    LatestColumn(SortByTime(loaded), c);
  }

  /** The totals are the last row of dashboard.py's ledger for the same snapshots. */
  lemma TotalsMatchLedger(loaded: seq<Snapshot>, c: Code)
    requires loaded != [] && c in Universe(loaded)
    ensures c in ReportOf(loaded).history[|loaded| - 1].entries
    ensures Totals(loaded)[c] == ReportOf(loaded).history[|loaded| - 1].entries[c].points
  {
    var h := SortByTime(loaded);
    var codes := SortedList(Universe(loaded));
    LastEntry(h, codes, c);
  }
}
