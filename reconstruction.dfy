/** The "cumulative gain only" vote reconstruction shared by dashboard.py, dashboard_two.py and
    test_calc.py, written once as pure functions.

    A snapshot maps candidate codes to vote-share percentages. Following the candidates through the
    time-ordered snapshots, every rise of a candidate's percentage is credited as
    (rise / 100) * BASE_TOTAL_VOTES points, every fall or standstill is ignored, and the previous
    percentage is then overwritten by the current one whatever the sign of the change. A code missing
    from a snapshot reads as 0. Money is points times BAHT_PER_POINT. */
module Reconstruction {
  import opened Sorting

  type Code = string

  /** One snapshot's percentages, by candidate code. */
  type Percentages = map<Code, real>

  /** A loaded snapshot; `time` is its sort key (the raw timestamp), kept abstract. */
  datatype Snapshot = Snapshot(time: int, pcts: Percentages)

  /** Rate constants of dashboard.py:2040-2042 and dashboard_two.py:18-19. */
  const BaseTotalVotes: real := 100000.0
  const BahtPerPoint: real := 4.0
  const PointsPerPercent: real := 1000.0

  /** `dict.get(code, 0)`: an absent code reads as 0. */
  function PctOf(p: Percentages, c: Code): real
  {
    if c in p then p[c] else 0.0
  }

  /** Points credited for one step from `prev` to `curr` percent. */
  function Gain(prev: real, curr: real): (g: real)
    ensures g >= 0.0
    ensures g == 0.0 <==> curr <= prev
    ensures curr > prev ==> g == (curr - prev) * PointsPerPercent
  {
    if curr > prev then (curr - prev) / 100.0 * BaseTotalVotes else 0.0
  }

  /** The previous percentage after a run: 0 before the first snapshot. */
  function Latest(ps: seq<real>): real
  {
    if ps == [] then 0.0 else ps[|ps| - 1]
  }

  /** Points accumulated by one candidate whose percentages, snapshot by snapshot, are `ps`. */
  function Credited(ps: seq<real>): (r: real)
    ensures r >= 0.0
    decreases |ps|
  {
    if ps == [] then 0.0
    else Credited(ps[..|ps| - 1]) + Gain(Latest(ps[..|ps| - 1]), ps[|ps| - 1])
  }

  /** One candidate's percentages over a history, absent snapshots reading as 0. */
  function Column(h: seq<Snapshot>, c: Code): (col: seq<real>)
    ensures |col| == |h|
    ensures forall i :: 0 <= i < |h| ==> col[i] == PctOf(h[i].pcts, c)
  {
    seq(|h|, i requires 0 <= i < |h| => PctOf(h[i].pcts, c))
  }

  /** Cumulative points of `c` after the whole history `h`. */
  function Points(h: seq<Snapshot>, c: Code): real
  {
    Credited(Column(h, c))
  }

  /** `prev_pct[c]` after the history `h`. */
  function LastPct(h: seq<Snapshot>, c: Code): real
  {
    if h == [] then 0.0 else PctOf(h[|h| - 1].pcts, c)
  }

  /** Every code observed in any snapshot. */
  function Universe(h: seq<Snapshot>): set<Code>
  {
    set s, c | s in h && c in s.pcts :: c
  }

  /** `sum(cumulative.values())` over the code list. */
  function SumPoints(h: seq<Snapshot>, codes: seq<Code>): real
  {
    if codes == [] then 0.0 else Points(h, codes[0]) + SumPoints(h, codes[1..])
  }

  /** `sum(d.values())` of a dict whose keys, in insertion order, are `codes`. */
  function SumOver(m: map<Code, real>, codes: seq<Code>): real
  {
    if codes == [] then 0.0 else (if codes[0] in m then m[codes[0]] else 0.0) + SumOver(m, codes[1..])
  }

  lemma {:induction false} SumOverPoints(m: map<Code, real>, h: seq<Snapshot>, codes: seq<Code>)
    requires forall c :: c in codes ==> c in m && m[c] == Points(h, c)
    ensures SumOver(m, codes) == SumPoints(h, codes)
  {
    if codes != [] {
      SumOverPoints(m, h, codes[1..]);
    }
  }

  lemma UniverseSnoc(h: seq<Snapshot>, s: Snapshot)
    ensures Universe(h + [s]) == Universe(h) + s.pcts.Keys
  {
    forall c | c in Universe(h + [s]) ensures c in Universe(h) + s.pcts.Keys {
      var t :| t in h + [s] && c in t.pcts;
    }
  }

  /** Code `c` not yet credited: its running total and previous percentage as they were. */
  predicate CodePending(c: Code, cumulative: map<Code, real>, prev: map<Code, real>,
                        cumulative': map<Code, real>, prev': map<Code, real>)
  {
    c in cumulative && c in prev && c in cumulative' && c in prev'
    && cumulative'[c] == cumulative[c] && prev'[c] == prev[c]
  }

  /** The fold state: `cumulative[c]` and `prev[c]` hold, for every code, the points and the last
      percentage after the history `h`. */
  predicate Tracks(cumulative: map<Code, real>, prev: map<Code, real>, h: seq<Snapshot>, codes: seq<Code>)
  {
    forall c :: c in codes ==> c in cumulative && cumulative[c] == Points(h, c) && c in prev && prev[c] == LastPct(h, c)
  }

  /** Crediting snapshot `h[i]` code by code advances the fold state from `h[..i]` to `h[..i + 1]`. */
  lemma TracksStep(h: seq<Snapshot>, i: nat, codes: seq<Code>, cumulative: map<Code, real>, prev: map<Code, real>,
                   cumulative': map<Code, real>, prev': map<Code, real>)
    requires i < |h| && Tracks(cumulative, prev, h[..i], codes)
    requires forall c :: c in codes ==> c in cumulative' && c in prev'
    requires forall c :: c in codes ==> cumulative'[c] == cumulative[c] + Gain(prev[c], PctOf(h[i].pcts, c))
    requires forall c :: c in codes ==> prev'[c] == PctOf(h[i].pcts, c)
    ensures Tracks(cumulative', prev', h[..i + 1], codes)
  {
    forall c | c in codes
      ensures cumulative'[c] == Points(h[..i + 1], c) && prev'[c] == LastPct(h[..i + 1], c)
    {
      PointsStep(h, c, i);
    }
  }

  /** The fold state before any snapshot: every code at 0 points and 0 percent. */
  lemma TracksStart(h: seq<Snapshot>, codes: seq<Code>)
    ensures Tracks(map c | c in codes :: 0.0, map c | c in codes :: 0.0, h[..0], codes)
  {
  }

  /** One candidate's ledger entry at one snapshot (dashboard.py:2124-2130, before rounding). */
  datatype Entry = Entry(percentage: real, points: real, money: real, pointsAdded: real, moneyAdded: real)

  /** One row of the ledger: a snapshot's time, every code's entry, and the totals. */
  datatype Row = Row(time: int, entries: map<Code, Entry>, totalPoints: real, totalMoney: real)

  function EntryAt(h: seq<Snapshot>, i: nat, c: Code): Entry
    requires i < |h|
  {
    var curr := PctOf(h[i].pcts, c);
    var points := Points(h[..i + 1], c);
    var added := Gain(LastPct(h[..i], c), curr);
    Entry(curr, points, points * BahtPerPoint, added, added * BahtPerPoint)
  }

  function RowAt(h: seq<Snapshot>, codes: seq<Code>, i: nat): Row
    requires i < |h|
  {
    var total := SumPoints(h[..i + 1], codes);
    Row(h[i].time, map c | c in codes :: EntryAt(h, i, c), total, total * BahtPerPoint)
  }

  /** The ledger: one row per snapshot of the time-ordered history `h`, one entry per code. */
  function Reconstruct(h: seq<Snapshot>, codes: seq<Code>): (rows: seq<Row>)
  {
    seq(|h|, i requires 0 <= i < |h| => RowAt(h, codes, i))
  }

  /** Python's stable `sort(key=timestamp)`, as a stable descending sort on the negated time. */
  function TimeKey(s: Snapshot): real
  {
    -(s.time as real)
  }

  function SortByTime(h: seq<Snapshot>): (r: seq<Snapshot>)
    ensures multiset(r) == multiset(h)
    ensures |r| == |h|
  {
    SortDesc(h, TimeKey)
  }

  /** No two different snapshots share a time. */
  predicate DistinctTimes(h: seq<Snapshot>)
  {
    forall x, y :: x in h && y in h && x.time == y.time ==> x == y
  }

  /** A code list with no repetition. */
  predicate Distinct(codes: seq<Code>)
  {
    forall i, j :: 0 <= i < j < |codes| ==> codes[i] != codes[j]
  }

  // ---------------------------------------------------------------------------------------------
  // The fold, one step at a time

  lemma EntryOf(h: seq<Snapshot>, codes: seq<Code>, i: nat, c: Code)
    requires i < |h| && c in codes
    ensures Reconstruct(h, codes)[i].entries[c] == EntryAt(h, i, c)
  {
  }

  /** The last row of the ledger holds every code's points after the whole history. */
  lemma LastEntry(h: seq<Snapshot>, codes: seq<Code>, c: Code)
    requires h != [] && c in codes
    ensures c in Reconstruct(h, codes)[|h| - 1].entries
    ensures Reconstruct(h, codes)[|h| - 1].entries[c].points == Points(h, c)
  {
    EntryOf(h, codes, |h| - 1, c);
    assert h[..|h| - 1 + 1] == h;
  }

  lemma CreditedSnoc(ps: seq<real>, x: real)
    ensures Credited(ps + [x]) == Credited(ps) + Gain(Latest(ps), x)
    ensures Latest(ps + [x]) == x
  {
    assert (ps + [x])[..|ps|] == ps;
  }

  lemma ColumnPrefix(h: seq<Snapshot>, c: Code, k: nat)
    requires k <= |h|
    ensures Column(h[..k], c) == Column(h, c)[..k]
  {
  }

  lemma LatestColumn(h: seq<Snapshot>, c: Code)
    ensures Latest(Column(h, c)) == LastPct(h, c)
  {
  }

  /** Crediting snapshot `i`: the running total grows by exactly the gain from the previous raw
      percentage, and the previous percentage becomes the current one. */
  lemma PointsStep(h: seq<Snapshot>, c: Code, i: nat)
    requires i < |h|
    ensures Points(h[..i + 1], c) == Points(h[..i], c) + Gain(LastPct(h[..i], c), PctOf(h[i].pcts, c))
    ensures LastPct(h[..i + 1], c) == PctOf(h[i].pcts, c)
  {
    assert Column(h[..i + 1], c) == Column(h[..i], c) + [PctOf(h[i].pcts, c)];
    CreditedSnoc(Column(h[..i], c), PctOf(h[i].pcts, c));
    LatestColumn(h[..i], c);
  }

  // ---------------------------------------------------------------------------------------------
  // Properties of one candidate's series

  /** Cumulative points never decrease along the history. */
  lemma {:induction false} PointsMonotone(h: seq<Snapshot>, c: Code, i: nat, j: nat)
    requires i <= j <= |h|
    ensures Points(h[..i], c) <= Points(h[..j], c)
    decreases j - i
  {
    if i < j {
      PointsMonotone(h, c, i, j - 1);
      PointsStep(h, c, j - 1);
    }
  }

  /** Telescoping: a non-negative, non-decreasing series is credited exactly its last value. */
  lemma {:induction false} CreditedTelescopes(ps: seq<real>)
    requires forall i :: 0 <= i < |ps| ==> 0.0 <= ps[i]
    requires forall i, j :: 0 <= i <= j < |ps| ==> ps[i] <= ps[j]
    ensures Credited(ps) == Latest(ps) * PointsPerPercent
    decreases |ps|
  {
    if ps != [] {
      var init := ps[..|ps| - 1];
      CreditedTelescopes(init);
      CreditedSnoc(init, ps[|ps| - 1]);
      assert ps == init + [ps[|ps| - 1]];
    }
  }

  /** A candidate whose percentage never falls holds its latest percentage times 1000 points. */
  lemma PointsTelescope(h: seq<Snapshot>, c: Code, i: nat)
    requires i < |h|
    requires forall k :: 0 <= k < |h| ==> 0.0 <= PctOf(h[k].pcts, c)
    requires forall k, l :: 0 <= k <= l < |h| ==> PctOf(h[k].pcts, c) <= PctOf(h[l].pcts, c)
    ensures Points(h[..i + 1], c) == PctOf(h[i].pcts, c) * PointsPerPercent
  {
    ColumnPrefix(h, c, i + 1);
    CreditedTelescopes(Column(h, c)[..i + 1]);
  }

  /** The credited points always cover the net rise from 0 to the latest percentage: the
      reconstruction never reports fewer points than the final share alone implies. */
  lemma {:induction false} CreditedCoversNetRise(ps: seq<real>)
    ensures Credited(ps) >= Latest(ps) * PointsPerPercent
    decreases |ps|
  {
    if ps != [] {
      var init := ps[..|ps| - 1];
      CreditedCoversNetRise(init);
      CreditedSnoc(init, ps[|ps| - 1]);
      assert ps == init + [ps[|ps| - 1]];
    }
  }

  // ---------------------------------------------------------------------------------------------
  // Properties of the ledger

  /** One row per snapshot, in order, each listing exactly the given codes, money being points
      times BAHT_PER_POINT and the row total being the sum of the codes' points. */
  lemma LedgerShape(h: seq<Snapshot>, codes: seq<Code>, i: nat, c: Code)
    requires i < |h|
    ensures |Reconstruct(h, codes)| == |h|
    ensures Reconstruct(h, codes)[i].time == h[i].time
    ensures Reconstruct(h, codes)[i].entries.Keys == set d | d in codes
    ensures c in codes ==> Reconstruct(h, codes)[i].entries[c].money == Reconstruct(h, codes)[i].entries[c].points * BahtPerPoint
    ensures Reconstruct(h, codes)[i].totalMoney == Reconstruct(h, codes)[i].totalPoints * BahtPerPoint
    ensures Reconstruct(h, codes)[i].totalPoints == SumPoints(h[..i + 1], codes)
  {
  }

  /** Monotonicity: every candidate's cumulative points at snapshot i+1 are at least those at i. */
  lemma LedgerMonotone(h: seq<Snapshot>, codes: seq<Code>, i: nat, c: Code)
    requires i + 1 < |h| && c in codes
    ensures Reconstruct(h, codes)[i].entries[c].points <= Reconstruct(h, codes)[i + 1].entries[c].points
  {
    PointsStep(h, c, i + 1);
    assert h[..i + 2][..i + 1] == h[..i + 1];
  }

  /** Gain-only rule: the points added at snapshot i are 0 when the percentage did not rise above
      the previous raw percentage (0 before the first snapshot), and exactly the rise times
      POINTS_PER_PERCENT otherwise; the cumulative total grows by exactly that amount. */
  lemma LedgerGainOnly(h: seq<Snapshot>, codes: seq<Code>, i: nat, c: Code)
    requires i < |h| && c in codes
    ensures var e := Reconstruct(h, codes)[i].entries[c];
            var prev := if i == 0 then 0.0 else PctOf(h[i - 1].pcts, c);
            var before := if i == 0 then 0.0 else Reconstruct(h, codes)[i - 1].entries[c].points;
            && e.percentage == PctOf(h[i].pcts, c)
            && (e.percentage <= prev ==> e.pointsAdded == 0.0 && e.points == before)
            && (e.percentage > prev ==> e.pointsAdded == (e.percentage - prev) * PointsPerPercent)
            && e.points == before + e.pointsAdded
            && e.moneyAdded == e.pointsAdded * BahtPerPoint
  {
    PointsStep(h, c, i);
    if i > 0 {
      assert h[..i] == h[..i - 1 + 1];
    }
  }

  /** Per-candidate independence: a candidate's ledger entries depend only on its own column of
      percentages, whatever the other candidates do and whichever other codes are listed. */
  lemma LedgerIndependent(h1: seq<Snapshot>, codes1: seq<Code>, h2: seq<Snapshot>, codes2: seq<Code>, i: nat, c: Code)
    requires |h1| == |h2| && i < |h1|
    requires c in codes1 && c in codes2
    requires forall k :: 0 <= k < |h1| ==> PctOf(h1[k].pcts, c) == PctOf(h2[k].pcts, c)
    ensures Reconstruct(h1, codes1)[i].entries[c] == Reconstruct(h2, codes2)[i].entries[c]
  {
    EntryOf(h1, codes1, i, c);
    EntryOf(h2, codes2, i, c);
    ColumnsAgree(h1, h2, c, i + 1);
    ColumnsAgree(h1, h2, c, i);
  }

  /** Two histories with the same column for `c` agree on its points and previous percentage. */
  lemma ColumnsAgree(h1: seq<Snapshot>, h2: seq<Snapshot>, c: Code, k: nat)
    requires |h1| == |h2| && k <= |h1|
    requires forall j :: 0 <= j < |h1| ==> PctOf(h1[j].pcts, c) == PctOf(h2[j].pcts, c)
    ensures Points(h1[..k], c) == Points(h2[..k], c)
    ensures LastPct(h1[..k], c) == LastPct(h2[..k], c)
  {
    ColumnPrefix(h1, c, k);
    ColumnPrefix(h2, c, k);
    assert Column(h1, c) == Column(h2, c);
    LatestColumn(h1[..k], c);
    LatestColumn(h2[..k], c);
  }

  /** The row totals never decrease either. */
  lemma {:induction false} SumPointsMonotone(h: seq<Snapshot>, codes: seq<Code>, i: nat)
    requires i < |h|
    ensures SumPoints(h[..i], codes) <= SumPoints(h[..i + 1], codes)
    decreases |codes|
  {
    if codes != [] {
      SumPointsMonotone(h, codes[1..], i);
      PointsMonotone(h, codes[0], i, i + 1);
    }
  }

  lemma LedgerTotalMonotone(h: seq<Snapshot>, codes: seq<Code>, i: nat)
    requires i + 1 < |h|
    ensures Reconstruct(h, codes)[i].totalPoints <= Reconstruct(h, codes)[i + 1].totalPoints
  {
    SumPointsMonotone(h, codes, i + 1);
  }

  lemma EntryAtPrefix(h: seq<Snapshot>, k: nat, i: nat, c: Code)
    requires i < k <= |h|
    ensures EntryAt(h[..k], i, c) == EntryAt(h, i, c)
  {
    assert h[..k][..i + 1] == h[..i + 1];
    assert h[..k][..i] == h[..i];
  }

  lemma RowAtPrefix(h: seq<Snapshot>, codes: seq<Code>, k: nat, i: nat)
    requires i < k <= |h|
    ensures RowAt(h[..k], codes, i) == RowAt(h, codes, i)
  {
    assert h[..k][..i + 1] == h[..i + 1];
    var m1 := map c | c in codes :: EntryAt(h[..k], i, c);
    var m2 := map c | c in codes :: EntryAt(h, i, c);
    forall c | c in codes ensures m1[c] == m2[c] {
      EntryAtPrefix(h, k, i, c);
    }
    assert m1 == m2;
  }

  /** The ledger grows by one row per snapshot. */
  lemma ReconstructSnoc(h: seq<Snapshot>, codes: seq<Code>, i: nat)
    requires i < |h|
    ensures Reconstruct(h, codes)[..i + 1] == Reconstruct(h, codes)[..i] + [RowAt(h, codes, i)]
  {
  }

  /** Replay safety: appending snapshots to the store never changes the rows already derived. */
  lemma ReconstructPrefix(h: seq<Snapshot>, codes: seq<Code>, k: nat)
    requires k <= |h|
    ensures Reconstruct(h[..k], codes) == Reconstruct(h, codes)[..k]
  {
    var a, b := Reconstruct(h[..k], codes), Reconstruct(h, codes)[..k];
    forall i | 0 <= i < k ensures a[i] == b[i] {
      RowAtPrefix(h, codes, k, i);
    }
  }

  /** The history is put in ascending time order. */
  lemma SortByTimeAscending(h: seq<Snapshot>, i: nat, j: nat)
    requires i <= j < |h|
    ensures SortByTime(h)[i].time <= SortByTime(h)[j].time
  {
    SortDescSorted(h, TimeKey);
  }

  /** Order independence of the store: the same snapshots stored in any order give the same
      time-ordered history, hence the same ledger, when no two snapshots share a time. */
  lemma SortByTimeIgnoresStorageOrder(a: seq<Snapshot>, b: seq<Snapshot>)
    requires multiset(a) == multiset(b)
    requires DistinctTimes(a)
    ensures SortByTime(a) == SortByTime(b)
  {
    SortDescIgnoresInputOrder(a, b, TimeKey);
  }

  /** The code universe does not depend on the order of the snapshots. */
  lemma UniversePermutation(a: seq<Snapshot>, b: seq<Snapshot>)
    requires multiset(a) == multiset(b)
    ensures Universe(a) == Universe(b)
  {
    forall s | s in a ensures s in b { assert s in multiset(a); }
    forall s | s in b ensures s in a { assert s in multiset(b); }
  }

  // ---------------------------------------------------------------------------------------------
  // The behaviours of the code, on concrete histories

  /** A candidate at 10.0, 12.5 then 11.0: the first snapshot is credited in full (prev starts at 0),
      the drop contributes nothing. */
  lemma ScenarioFirstSnapshotCredited()
    ensures Credited([10.0]) == 10000.0
    ensures Credited([10.0, 12.5]) == 12500.0
    ensures Credited([10.0, 12.5, 11.0]) == 12500.0
  {
    CreditedSnoc([], 10.0);
    CreditedSnoc([10.0], 12.5);
    CreditedSnoc([10.0, 12.5], 11.0);
  }

  /** 10 -> 8 -> 10: prev follows the raw percentage down, so the recovery is credited again. */
  lemma ScenarioDipAndRecover()
    ensures Credited([10.0, 8.0, 10.0]) == 12000.0
  {
    CreditedSnoc([], 10.0);
    CreditedSnoc([10.0], 8.0);
    CreditedSnoc([10.0, 8.0], 10.0);
  }

  /** A code absent from the middle snapshot reads as 0, so when it reappears at 10 it is
      credited from 0 a second time. */
  lemma ScenarioAbsentCodeRestarts()
    ensures Points([Snapshot(1, map["X" := 10.0]), Snapshot(2, map[]), Snapshot(3, map["X" := 10.0])], "X") == 20000.0
  {
    var h := [Snapshot(1, map["X" := 10.0]), Snapshot(2, map[]), Snapshot(3, map["X" := 10.0])];
    assert PctOf(h[1].pcts, "X") == 0.0;
    assert Column(h, "X") == [10.0, 0.0, 10.0];
    CreditedSnoc([], 10.0);
    assert [] + [10.0] == [10.0];
    CreditedSnoc([10.0], 0.0);
    assert [10.0] + [0.0] == [10.0, 0.0];
    CreditedSnoc([10.0, 0.0], 10.0);
    assert [10.0, 0.0] + [10.0] == [10.0, 0.0, 10.0];
  }

  /** The history of the two-candidate scenario: A at 0, 5, 5, 8 and B at 0, 0, 3, 3. */
  function TwoCandidateHistory(): seq<Snapshot>
  {
    [Snapshot(1, map["A" := 0.0, "B" := 0.0]), Snapshot(2, map["A" := 5.0, "B" := 0.0]),
     Snapshot(3, map["A" := 5.0, "B" := 3.0]), Snapshot(4, map["A" := 8.0, "B" := 3.0])]
  }

  /** A's points are 0, 5000, 5000, 8000 and B's 0, 0, 3000, 3000: the two do not interact. */
  lemma ScenarioTwoCandidates(i: nat)
    requires i < 4
    ensures Points(TwoCandidateHistory()[..i + 1], "A") == [0.0, 5000.0, 5000.0, 8000.0][i]
    ensures Points(TwoCandidateHistory()[..i + 1], "B") == [0.0, 0.0, 3000.0, 3000.0][i]
  {
    TwoCandidateColumns();
    PointsTelescope(TwoCandidateHistory(), "A", i);
    PointsTelescope(TwoCandidateHistory(), "B", i);
  }

  lemma TwoCandidateColumns()
    ensures |TwoCandidateHistory()| == 4
    ensures forall k :: 0 <= k < 4 ==>
              PctOf(TwoCandidateHistory()[k].pcts, "A") == [0.0, 5.0, 5.0, 8.0][k]
              && PctOf(TwoCandidateHistory()[k].pcts, "B") == [0.0, 0.0, 3.0, 3.0][k]
  {
    assert "A" != "B";
  }


}
