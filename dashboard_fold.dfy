/** `calculate_votes_and_money` of dashboard.py: loads every snapshot file, orders the snapshots by
    timestamp, walks them once keeping `cumulative_points` and `prev_pct` per candidate code, and
    returns the hourly ledger, the code list, the latest per-code summary and the totals. */
module DashboardFold {
  import opened Wrappers
  import opened Sorting
  import opened Strings
  import opened Reconstruction

  /** One item of `latest_summary`. */
  datatype CodeTotal = CodeTotal(code: Code, points: real, money: real)

  /** The successful response of the endpoint, before rounding. */
  datatype Report = Report(history: seq<Row>, codes: seq<Code>, latestSummary: seq<CodeTotal>,
                           totalBaseVotes: real, totalMoney: real)

  /** The two `{'error': ...}` answers: no data file at all, or no file that could be read. */
  datatype Error = NoDataFiles | NoHistory

  /** The snapshots of the readable files, in file order; `None` is a file that failed to load
      and is skipped. */
  function Loaded(files: seq<Option<Snapshot>>): (h: seq<Snapshot>)
    ensures |h| <= |files|
  {
    if files == [] then []
    else Loaded(files[..|files| - 1]) + (match files[|files| - 1] case None => [] case Some(s) => [s])
  }

  function PointsKey(t: CodeTotal): real
  {
    t.points
  }

  /** The per-code totals after the history `h`, in code order. */
  function TotalsOf(h: seq<Snapshot>, codes: seq<Code>): (ts: seq<CodeTotal>)
    ensures |ts| == |codes|
  {
    seq(|codes|, i requires 0 <= i < |codes| => CodeTotal(codes[i], Points(h, codes[i]), Points(h, codes[i]) * BahtPerPoint))
  }

  /** What the endpoint computes from the loaded snapshots. */
  function ReportOf(loaded: seq<Snapshot>): Report
  {
    var h := SortByTime(loaded);
    var codes := SortedList(Universe(loaded));
    var total := SumPoints(h, codes);
    Report(Reconstruct(h, codes), codes, SortDesc(TotalsOf(h, codes), PointsKey), total, total * BahtPerPoint)
  }

  lemma LoadedSnoc(files: seq<Option<Snapshot>>, k: nat)
    requires k < |files|
    ensures Loaded(files[..k + 1]) == Loaded(files[..k]) + (match files[k] case None => [] case Some(s) => [s])
  {
    assert files[..k + 1][..k] == files[..k];
  }

  lemma SortedListDistinct(s: set<Code>)
    ensures Distinct(SortedList(s))
    ensures (set c | c in SortedList(s)) == s
  {
    SortedListAscending(s);
    forall i, j | 0 <= i < j < |SortedList(s)| ensures SortedList(s)[i] != SortedList(s)[j] {
      BeforeAsymmetric(SortedList(s)[i], SortedList(s)[i]);
    }
  }

  /** The entry of a code holding `points` whose previous percentage was `prevPct`, when the next
      snapshot shows `curr`. */
  function Credit(points: real, prevPct: real, curr: real): Entry
  {
    var added := Gain(prevPct, curr);
    Entry(curr, points + added, (points + added) * BahtPerPoint, added, added * BahtPerPoint)
  }

  lemma EntryAtCredit(h: seq<Snapshot>, i: nat, c: Code)
    requires i < |h|
    ensures EntryAt(h, i, c) == Credit(Points(h[..i], c), LastPct(h[..i], c), PctOf(h[i].pcts, c))
  {
    PointsStep(h, c, i);
  }

  /** The body of the inner loop for one code at `curr` percent: the points grow by the gain over
      `prevPct`, and the entry records percentage, points, money and what was added. */
  method CreditCode(points: real, prevPct: real, curr: real) returns (entry: Entry)
    ensures entry == Credit(points, prevPct, curr)
  {
    var pointsAdded := 0.0;
    var total := points;
    if curr > prevPct {
      var delta := curr - prevPct;
      pointsAdded := delta / 100.0 * BaseTotalVotes;
      total := points + pointsAdded;
    }
    entry := Entry(curr, total, total * BahtPerPoint, pointsAdded, pointsAdded * BahtPerPoint);
  }

  /** Credits one snapshot to every code: the inner loop of the fold. */
  method CreditSnapshot(snap: Snapshot, codes: seq<Code>, cumulative: map<Code, real>, prev: map<Code, real>)
    returns (cumulative': map<Code, real>, prev': map<Code, real>, entries: map<Code, Entry>)
    requires Distinct(codes)
    requires forall c :: c in codes ==> c in cumulative && c in prev
    ensures forall c :: c in codes ==> c in cumulative' && c in prev' && c in entries
    ensures forall c :: c in codes ==> entries[c] == Credit(cumulative[c], prev[c], PctOf(snap.pcts, c))
    ensures forall c :: c in codes ==> cumulative'[c] == entries[c].points && prev'[c] == PctOf(snap.pcts, c)
    ensures entries.Keys == set c | c in codes
  {
    var current := snap.pcts;
    cumulative', prev', entries := cumulative, prev, map[];
    for j := 0 to |codes|
      invariant forall k :: 0 <= k < j ==> CodeCredited(codes[k], snap, cumulative, prev, cumulative', prev', entries)
      invariant forall k :: j <= k < |codes| ==> CodePending(codes[k], cumulative, prev, cumulative', prev')
      invariant entries.Keys == set k | 0 <= k < j :: codes[k]
    {
      var code := codes[j];
      var curr := if code in current then current[code] else 0.0;
      var p := if code in prev' then prev'[code] else 0.0;
      var entry := CreditCode(cumulative'[code], p, curr);
      CreditStepKeeps(codes, j, snap, cumulative, prev, cumulative', prev', entries, entry);
      cumulative' := cumulative'[code := entry.points];
      entries := entries[code := entry];
      prev' := prev'[code := curr];
      assert (set k | 0 <= k < j + 1 :: codes[k]) == (set k | 0 <= k < j :: codes[k]) + {code};
    }
    forall c | c in codes
      ensures CodeCredited(c, snap, cumulative, prev, cumulative', prev', entries)
    {
      var k :| 0 <= k < |codes| && codes[k] == c;
    }
    assert entries.Keys == set c | c in codes;
  }

  /** One step of the inner loop credits code `j` and leaves the others as they were. */
  lemma CreditStepKeeps(codes: seq<Code>, j: nat, snap: Snapshot, cumulative: map<Code, real>, prev: map<Code, real>,
                        cumulative': map<Code, real>, prev': map<Code, real>, entries: map<Code, Entry>, entry: Entry)
    requires Distinct(codes) && j < |codes|
    requires forall k :: 0 <= k < j ==> CodeCredited(codes[k], snap, cumulative, prev, cumulative', prev', entries)
    requires forall k :: j <= k < |codes| ==> CodePending(codes[k], cumulative, prev, cumulative', prev')
    requires codes[j] in cumulative' && codes[j] in prev'
    requires entry == Credit(cumulative'[codes[j]], prev'[codes[j]], PctOf(snap.pcts, codes[j]))
    ensures var c := codes[j];
            forall k :: 0 <= k < j + 1 ==>
              CodeCredited(codes[k], snap, cumulative, prev, cumulative'[c := entry.points],
                           prev'[c := PctOf(snap.pcts, c)], entries[c := entry])
    ensures var c := codes[j];
            forall k :: j + 1 <= k < |codes| ==>
              CodePending(codes[k], cumulative, prev, cumulative'[c := entry.points], prev'[c := PctOf(snap.pcts, c)])
  {
    assert CodePending(codes[j], cumulative, prev, cumulative', prev');
  }

  /** Code `c` credited for `snap`: its entry, its new running total and its new previous percentage. */
  predicate CodeCredited(c: Code, snap: Snapshot, cumulative: map<Code, real>, prev: map<Code, real>,
                         cumulative': map<Code, real>, prev': map<Code, real>, entries: map<Code, Entry>)
  {
    c in cumulative && c in prev && c in cumulative' && c in prev' && c in entries
    && entries[c] == Credit(cumulative[c], prev[c], PctOf(snap.pcts, c))
    && cumulative'[c] == entries[c].points && prev'[c] == PctOf(snap.pcts, c)
  }

  /** The loading loop: every readable file contributes its snapshot and its codes. */
  method LoadHistory(files: seq<Option<Snapshot>>) returns (historyData: seq<Snapshot>, allCodes: set<Code>)
    ensures historyData == Loaded(files)
    ensures allCodes == Universe(historyData)
  {
    allCodes, historyData := {}, [];
    for k := 0 to |files|
      invariant historyData == Loaded(files[..k])
      invariant allCodes == Universe(historyData)
    {
      LoadedSnoc(files, k);
      match files[k] {
        case None =>
        case Some(snap) =>
          UniverseSnoc(historyData, snap);
          allCodes := allCodes + snap.pcts.Keys;
          historyData := historyData + [snap];
      }
    }
    assert files[..|files|] == files;
  }

  /** Crediting snapshot `h[i]` to state that tracks `h[..i]` yields state tracking `h[..i + 1]`
      and the ledger entries of row `i`. */
  lemma CreditTracks(h: seq<Snapshot>, i: nat, codes: seq<Code>, cumulative: map<Code, real>, prev: map<Code, real>,
                     cumulative': map<Code, real>, prev': map<Code, real>, entries: map<Code, Entry>)
    requires i < |h| && Tracks(cumulative, prev, h[..i], codes)
    requires forall c :: c in codes ==> c in cumulative' && c in prev' && c in entries
    requires forall c :: c in codes ==> entries[c] == Credit(cumulative[c], prev[c], PctOf(h[i].pcts, c))
    requires forall c :: c in codes ==> cumulative'[c] == entries[c].points && prev'[c] == PctOf(h[i].pcts, c)
    requires entries.Keys == set c | c in codes
    ensures Tracks(cumulative', prev', h[..i + 1], codes)
    ensures entries == map c | c in codes :: EntryAt(h, i, c)
  {
    forall c | c in codes
      ensures entries[c] == EntryAt(h, i, c)
      ensures cumulative'[c] == Points(h[..i + 1], c) && prev'[c] == LastPct(h[..i + 1], c)
    {
      EntryAtCredit(h, i, c);
      PointsStep(h, c, i);
    }
  }

  lemma RowOfState(h: seq<Snapshot>, codes: seq<Code>, i: nat, cumulative: map<Code, real>, prev: map<Code, real>,
                   entries: map<Code, Entry>)
    requires i < |h| && Tracks(cumulative, prev, h[..i + 1], codes)
    requires entries == map c | c in codes :: EntryAt(h, i, c)
    ensures Row(h[i].time, entries, SumOver(cumulative, codes), SumOver(cumulative, codes) * BahtPerPoint) == RowAt(h, codes, i)
  {
    SumOverPoints(cumulative, h[..i + 1], codes);
  }

  /** One pass of the main loop: credits snapshot `h[i]` and builds its `hour_data` row with the
      running totals. */
  method HourData(h: seq<Snapshot>, i: nat, codes: seq<Code>, cumulative: map<Code, real>, prev: map<Code, real>)
    returns (cumulative': map<Code, real>, prev': map<Code, real>, row: Row)
    requires i < |h| && Distinct(codes) && Tracks(cumulative, prev, h[..i], codes)
    ensures Tracks(cumulative', prev', h[..i + 1], codes)
    ensures row == RowAt(h, codes, i)
  {
    var entries;
    cumulative', prev', entries := CreditSnapshot(h[i], codes, cumulative, prev);
    CreditTracks(h, i, codes, cumulative, prev, cumulative', prev', entries);
    var totalPoints := SumOver(cumulative', codes);
    RowOfState(h, codes, i, cumulative', prev', entries);
    row := Row(h[i].time, entries, totalPoints, totalPoints * BahtPerPoint);
  }

  /** The main loop over the time-ordered history: one ledger row per snapshot. */
  method FoldHistory(h: seq<Snapshot>, codes: seq<Code>) returns (history: seq<Row>, cumulative: map<Code, real>)
    requires Distinct(codes)
    ensures history == Reconstruct(h, codes)
    ensures forall c :: c in codes ==> c in cumulative && cumulative[c] == Points(h, c)
  {
    cumulative := map c | c in codes :: 0.0;
    var prev := map c | c in codes :: 0.0;
    history := [];
    for i := 0 to |h|
      invariant Tracks(cumulative, prev, h[..i], codes)
      invariant history == Reconstruct(h, codes)[..i]
    {
      var row;
      cumulative, prev, row := HourData(h, i, codes, cumulative, prev);
      ReconstructSnoc(h, codes, i);
      history := history + [row];
    }
    assert h[..|h|] == h;
  }

  /** `latest_summary`: one item per code from the final cumulative points, highest first. */
  method LatestSummary(h: seq<Snapshot>, codes: seq<Code>, cumulative: map<Code, real>) returns (latest: seq<CodeTotal>)
    requires forall c :: c in codes ==> c in cumulative && cumulative[c] == Points(h, c)
    ensures latest == SortDesc(TotalsOf(h, codes), PointsKey)
  {
    latest := [];
    for j := 0 to |codes|
      invariant |latest| == j
      invariant forall k :: 0 <= k < j ==> latest[k] == TotalsOf(h, codes)[k]
    {
      latest := latest + [CodeTotal(codes[j], cumulative[codes[j]], cumulative[codes[j]] * BahtPerPoint)];
    }
    assert latest == TotalsOf(h, codes);
    latest := SortDesc(latest, PointsKey);
  }

  lemma ReportOfParts(loaded: seq<Snapshot>, h: seq<Snapshot>, codes: seq<Code>, history: seq<Row>,
                      latest: seq<CodeTotal>, total: real)
    requires h == SortByTime(loaded) && codes == SortedList(Universe(loaded))
    requires history == Reconstruct(h, codes) && latest == SortDesc(TotalsOf(h, codes), PointsKey)
    requires total == SumPoints(h, codes)
    ensures ReportOf(loaded) == Report(history, codes, latest, total, total * BahtPerPoint)
  {
  }

  /** The endpoint. */
  method CalculateVotesAndMoney(files: seq<Option<Snapshot>>) returns (r: Result<Report, Error>)
    ensures files == [] ==> r == Failure(NoDataFiles)
    ensures files != [] && Loaded(files) == [] ==> r == Failure(NoHistory)
    ensures files != [] && Loaded(files) != [] ==> r == Success(ReportOf(Loaded(files)))
  {
    if files == [] {
      return Failure(NoDataFiles);
    }
    var historyData, allCodes := LoadHistory(files);
    if historyData == [] {
      return Failure(NoHistory);
    }
    ghost var loaded := historyData;
    historyData := SortByTime(historyData);
    var codes := SortedList(allCodes);
    SortedListDistinct(allCodes);
    var history, cumulative := FoldHistory(historyData, codes);
    var latest := LatestSummary(historyData, codes, cumulative);
    var totalVotes := SumOver(cumulative, codes);
    SumOverPoints(cumulative, historyData, codes);
    ReportOfParts(loaded, historyData, codes, history, latest, totalVotes);
    r := Success(Report(history, codes, latest, totalVotes, totalVotes * BahtPerPoint));
  }

  // ---------------------------------------------------------------------------------------------
  // What the endpoint promises

  /** A file that fails to load is skipped; every other file contributes its snapshot. */
  lemma {:induction false} LoadedKeepsReadable(files: seq<Option<Snapshot>>, s: Snapshot)
    ensures s in Loaded(files) <==> Some(s) in files
  {
    if files != [] {
      var last := files[|files| - 1];
      LoadedKeepsReadable(files[..|files| - 1], s);
      assert files == files[..|files| - 1] + [last];
    }
  }

  /** The ledger has one row per loaded snapshot, in ascending time, each listing every code. */
  lemma ReportLedger(loaded: seq<Snapshot>, i: nat, j: nat)
    requires i <= j < |loaded|
    ensures |ReportOf(loaded).history| == |loaded|
    ensures ReportOf(loaded).history[i].time <= ReportOf(loaded).history[j].time
    ensures ReportOf(loaded).history[j].entries.Keys == Universe(loaded)
  {
    var h := SortByTime(loaded);
    var codes := SortedList(Universe(loaded));
    assert |h| == |loaded| by { assert |multiset(h)| == |multiset(loaded)|; }
    LedgerShape(h, codes, i, "");
    LedgerShape(h, codes, j, "");
    SortByTimeAscending(loaded, i, j);
  }

  /** `codes` is the sorted list of every code seen in any snapshot, without repetition. */
  lemma ReportCodes(loaded: seq<Snapshot>)
    ensures forall c :: c in ReportOf(loaded).codes <==> c in Universe(loaded)
    ensures forall i, j :: 0 <= i < j < |ReportOf(loaded).codes| ==> Before(ReportOf(loaded).codes[i], ReportOf(loaded).codes[j])
  {
    SortedListAscending(Universe(loaded));
  }

  /** `latest_summary` lists every code once, highest points first, each with its final points
      and money. */
  lemma ReportSummary(loaded: seq<Snapshot>)
    ensures SortedDesc(ReportOf(loaded).latestSummary, PointsKey)
    ensures multiset(ReportOf(loaded).latestSummary) == multiset(TotalsOf(SortByTime(loaded), ReportOf(loaded).codes))
    ensures forall t :: t in ReportOf(loaded).latestSummary ==>
              t.code in Universe(loaded) && t.points == Points(SortByTime(loaded), t.code) && t.money == t.points * BahtPerPoint
  {
    var h := SortByTime(loaded);
    var codes := SortedList(Universe(loaded));
    SortDescSorted(TotalsOf(h, codes), PointsKey);
    forall t | t in ReportOf(loaded).latestSummary
      ensures t.code in Universe(loaded) && t.points == Points(h, t.code) && t.money == t.points * BahtPerPoint
    {
      assert t in multiset(SortDesc(TotalsOf(h, codes), PointsKey));
      assert t in TotalsOf(h, codes);
    }
  }

  /** The grand totals are those of the last ledger row. */
  lemma ReportTotals(loaded: seq<Snapshot>)
    requires loaded != []
    ensures |ReportOf(loaded).history| == |loaded|
    ensures ReportOf(loaded).totalBaseVotes == ReportOf(loaded).history[|loaded| - 1].totalPoints
    ensures ReportOf(loaded).totalMoney == ReportOf(loaded).totalBaseVotes * BahtPerPoint
  {
    var h := SortByTime(loaded);
    var codes := SortedList(Universe(loaded));
    assert |h| == |loaded| by { assert |multiset(h)| == |multiset(loaded)|; }
    LedgerShape(h, codes, |h| - 1, "");
    assert h[..|h| - 1 + 1] == h;
  }

  /** Neither the order of the data files nor the unreadable ones matter: two directories holding
      the same readable snapshots, no two sharing a timestamp, give the same report. */
  lemma ReportIgnoresFileOrder(a: seq<Option<Snapshot>>, b: seq<Option<Snapshot>>)
    requires multiset(Loaded(a)) == multiset(Loaded(b))
    requires DistinctTimes(Loaded(a))
    ensures ReportOf(Loaded(a)) == ReportOf(Loaded(b))
  {
    SortByTimeIgnoresStorageOrder(Loaded(a), Loaded(b));
    UniversePermutation(Loaded(a), Loaded(b));
  }
}
