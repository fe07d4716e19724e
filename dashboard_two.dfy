/** dashboard_two.py: `reconstruct_votes` walks the timestamp-sorted data frame row by row with the
    same cumulative-gain fold as dashboard.py, recording per row every candidate's votes, cost, name
    and percentage and the total; `get_data` then derives the summary, the chart series, the
    per-record differences and the records grouped by date. */
module DashboardTwo {
  import opened Wrappers
  import opened Sorting
  import opened Reconstruction

  /** VOTE_COST: baht per vote. */
  const VoteCost: real := 4.0

  /** The candidate columns of a data frame: never repeated. */
  type Columns = s: seq<Code> | Distinct(s)

  /** One frame row: the snapshot and the display name of each candidate. */
  datatype Record = Record(snap: Snapshot, names: map<Code, string>)

  /** The timestamp-sorted frame `load_data` returns, with its candidate columns. */
  datatype Frame = Frame(rows: seq<Record>, candidates: Columns)

  function Snaps(rows: seq<Record>): (h: seq<Snapshot>)
    ensures |h| == |rows|
    ensures forall i :: 0 <= i < |rows| ==> h[i] == rows[i].snap
  {
    seq(|rows|, i requires 0 <= i < |rows| => rows[i].snap)
  }

  /** `row.get(f'{c}_name', '')`. */
  function NameOf(names: map<Code, string>, c: Code): string
  {
    if c in names then names[c] else ""
  }

  /** The `{c}_votes`, `{c}_cost`, `{c}_name` and `{c}_pct` fields of one history step. */
  datatype CandidateStep = CandidateStep(votes: real, cost: real, name: string, pct: real)

  /** One `step_data` dict. */
  datatype Step = Step(time: int, candidates: map<Code, CandidateStep>, totalVotes: real)

  function StepAt(f: Frame, i: nat): Step
    requires i < |f.rows|
  {
    var h := Snaps(f.rows);
    Step(h[i].time,
         map c | c in f.candidates :: CandidateStep(Points(h[..i + 1], c), Points(h[..i + 1], c) * VoteCost,
                                                     NameOf(f.rows[i].names, c), PctOf(h[i].pcts, c)),
         SumPoints(h[..i + 1], f.candidates))
  }

  /** The history `reconstruct_votes` returns: one step per row. */
  function History(f: Frame): (hs: seq<Step>)
    ensures |hs| == |f.rows|
  {
    seq(|f.rows|, i requires 0 <= i < |f.rows| => StepAt(f, i))
  }

  lemma HistorySnoc(f: Frame, i: nat)
    requires i < |f.rows|
    ensures History(f)[..i + 1] == History(f)[..i] + [StepAt(f, i)]
  {
  }

  /** The candidate fields of step `i`, once the fold state tracks `h[..i + 1]`. */
  lemma FieldsOfState(f: Frame, i: nat, cumulative: map<Code, real>, prev: map<Code, real>, fields: map<Code, CandidateStep>)
    requires i < |f.rows| && Tracks(cumulative, prev, Snaps(f.rows)[..i + 1], f.candidates)
    requires forall c :: c in f.candidates ==> c in fields
    requires forall c :: c in f.candidates ==>
               fields[c] == CandidateStep(cumulative[c], cumulative[c] * VoteCost, NameOf(f.rows[i].names, c), PctOf(f.rows[i].snap.pcts, c))
    requires fields.Keys == set c | c in f.candidates
    ensures Step(f.rows[i].snap.time, fields, SumOver(cumulative, f.candidates)) == StepAt(f, i)
  {
    CandidateFields(f, i, cumulative, prev, fields);
    SumOverPoints(cumulative, Snaps(f.rows)[..i + 1], f.candidates);
  }

  lemma CandidateFields(f: Frame, i: nat, cumulative: map<Code, real>, prev: map<Code, real>, fields: map<Code, CandidateStep>)
    requires i < |f.rows| && Tracks(cumulative, prev, Snaps(f.rows)[..i + 1], f.candidates)
    requires forall c :: c in f.candidates ==> c in fields
    requires forall c :: c in f.candidates ==>
               fields[c] == CandidateStep(cumulative[c], cumulative[c] * VoteCost, NameOf(f.rows[i].names, c), PctOf(f.rows[i].snap.pcts, c))
    requires fields.Keys == set c | c in f.candidates
    ensures fields == StepAt(f, i).candidates
  {
    var h := Snaps(f.rows);
    var expected := StepAt(f, i).candidates;
    forall c | c in f.candidates ensures fields[c] == expected[c] {
      assert cumulative[c] == Points(h[..i + 1], c);
    }
  }

  /** Candidate `c` of `row` has been processed: its rise credited, its percentage remembered and
      its fields recorded. */
  predicate Processed(row: Record, c: Code, cumulative: map<Code, real>, prev: map<Code, real>,
                      cumulative': map<Code, real>, prev': map<Code, real>, fields: map<Code, CandidateStep>)
  {
    c in cumulative && c in prev && c in cumulative' && c in prev' && c in fields &&
    cumulative'[c] == cumulative[c] + Gain(prev[c], PctOf(row.snap.pcts, c)) &&
    prev'[c] == PctOf(row.snap.pcts, c) &&
    fields[c] == CandidateStep(cumulative'[c], cumulative'[c] * VoteCost, NameOf(row.names, c), PctOf(row.snap.pcts, c))
  }

  /** The candidate loop over one row: credits each candidate's rise and records its fields. */
  method CreditRow(row: Record, candidates: Columns, cumulative: map<Code, real>, prev: map<Code, real>)
    returns (cumulative': map<Code, real>, prev': map<Code, real>, fields: map<Code, CandidateStep>)
    requires forall c :: c in candidates ==> c in cumulative && c in prev
    ensures forall c :: c in candidates ==> Processed(row, c, cumulative, prev, cumulative', prev', fields)
    ensures fields.Keys == set c | c in candidates
  {
    fields := map[];
    cumulative', prev' := cumulative, prev;
    for j := 0 to |candidates|
      invariant forall k :: j <= k < |candidates| ==> CodePending(candidates[k], cumulative, prev, cumulative', prev')
      invariant forall k :: 0 <= k < j ==> Processed(row, candidates[k], cumulative, prev, cumulative', prev', fields)
      invariant fields.Keys == set k | 0 <= k < j :: candidates[k]
    {
      var c := candidates[j];
      assert CodePending(c, cumulative, prev, cumulative', prev');
      var pct := if c in row.snap.pcts then row.snap.pcts[c] else 0.0;
      var votes := cumulative'[c];
      var pctChange := pct - prev'[c];
      if pctChange > 0.0 {
        var votesAdded := (pctChange / 100.0) * BaseTotalVotes;
        votes := votes + votesAdded;
      }
      var name := if c in row.names then row.names[c] else "";
      var step := CandidateStep(votes, votes * VoteCost, name, pct);
      RowStepKeeps(row, candidates, j, cumulative, prev, cumulative', prev', fields, votes, pct, step);
      cumulative', prev', fields := cumulative'[c := votes], prev'[c := pct], fields[c := step];
      assert (set k | 0 <= k < j + 1 :: candidates[k]) == (set k | 0 <= k < j :: candidates[k]) + {c};
    }
    forall c | c in candidates ensures Processed(row, c, cumulative, prev, cumulative', prev', fields) {
      var k :| 0 <= k < |candidates| && candidates[k] == c;
    }
    assert fields.Keys == set c | c in candidates;
  }

  /** Processing candidate `j` keeps the earlier ones processed and the later ones pending. */
  lemma RowStepKeeps(row: Record, candidates: Columns, j: nat, cumulative: map<Code, real>, prev: map<Code, real>,
                     cumulative': map<Code, real>, prev': map<Code, real>, fields: map<Code, CandidateStep>,
                     votes: real, pct: real, step: CandidateStep)
    requires j < |candidates|
    requires forall k :: j <= k < |candidates| ==> CodePending(candidates[k], cumulative, prev, cumulative', prev')
    requires forall k :: 0 <= k < j ==> Processed(row, candidates[k], cumulative, prev, cumulative', prev', fields)
    requires candidates[j] in cumulative' && candidates[j] in prev'
    requires votes == cumulative'[candidates[j]] + Gain(prev'[candidates[j]], PctOf(row.snap.pcts, candidates[j]))
    requires pct == PctOf(row.snap.pcts, candidates[j])
    requires step == CandidateStep(votes, votes * VoteCost, NameOf(row.names, candidates[j]), pct)
    ensures var c := candidates[j];
            forall k :: 0 <= k < j + 1 ==>
              Processed(row, candidates[k], cumulative, prev, cumulative'[c := votes], prev'[c := pct], fields[c := step])
    ensures var c := candidates[j];
            forall k :: j + 1 <= k < |candidates| ==>
              CodePending(candidates[k], cumulative, prev, cumulative'[c := votes], prev'[c := pct])
  {
    assert CodePending(candidates[j], cumulative, prev, cumulative', prev');
  }

  /** The body of the row loop: credits row `i` to every candidate and records the step. */
  method StepData(f: Frame, i: nat, cumulative: map<Code, real>, prev: map<Code, real>)
    returns (cumulative': map<Code, real>, prev': map<Code, real>, step: Step)
    requires i < |f.rows| && Tracks(cumulative, prev, Snaps(f.rows)[..i], f.candidates)
    ensures Tracks(cumulative', prev', Snaps(f.rows)[..i + 1], f.candidates)
    ensures step == StepAt(f, i)
  {
    var fields;
    cumulative', prev', fields := CreditRow(f.rows[i], f.candidates, cumulative, prev);
    assert Snaps(f.rows)[i] == f.rows[i].snap;
    TracksStep(Snaps(f.rows), i, f.candidates, cumulative, prev, cumulative', prev');
    FieldsOfState(f, i, cumulative', prev', fields);
    step := Step(f.rows[i].snap.time, fields, SumOver(cumulative', f.candidates));
  }

  /** `reconstruct_votes`: `({}, [])` for an empty frame, otherwise one step per row and the
      candidate list. */
  method ReconstructVotes(f: Frame) returns (history: seq<Step>, candidates: seq<Code>)
    ensures history == History(f)
    ensures candidates == if f.rows == [] then [] else f.candidates
  {
    if f.rows == [] {
      return [], [];
    }
    candidates := f.candidates;
    var cumulative := map c | c in candidates :: 0.0;
    var prev := map c | c in candidates :: 0.0;
    TracksStart(Snaps(f.rows), candidates);
    history := [];
    for i := 0 to |f.rows|
      invariant Tracks(cumulative, prev, Snaps(f.rows)[..i], candidates)
      invariant history == History(f)[..i]
    {
      var step;
      cumulative, prev, step := StepData(f, i, cumulative, prev);
      HistorySnoc(f, i);
      history := history + [step];
    }
  }

  // ---------------------------------------------------------------------------------------------
  // What `reconstruct_votes` promises

  /** Each step agrees with the dashboard.py ledger over the same snapshots: votes are the ledger
      points, cost is votes times VOTE_COST, the percentage is the snapshot's, and the total is the
      ledger's row total. */
  lemma HistoryMatchesLedger(f: Frame, i: nat, c: Code)
    requires i < |f.rows| && c in f.candidates
    ensures c in History(f)[i].candidates
    ensures History(f)[i].candidates[c].votes == Reconstruct(Snaps(f.rows), f.candidates)[i].entries[c].points
    ensures History(f)[i].candidates[c].cost == History(f)[i].candidates[c].votes * VoteCost
    ensures History(f)[i].candidates[c].pct == Reconstruct(Snaps(f.rows), f.candidates)[i].entries[c].percentage
    ensures History(f)[i].totalVotes == Reconstruct(Snaps(f.rows), f.candidates)[i].totalPoints
    ensures History(f)[i].time == f.rows[i].snap.time
  {
    EntryOf(Snaps(f.rows), f.candidates, i, c);
  }

  /** Votes never decrease from one step to the next, for every candidate and for the total. */
  lemma HistoryMonotone(f: Frame, i: nat, c: Code)
    requires i + 1 < |f.rows| && c in f.candidates
    ensures History(f)[i].candidates[c].votes <= History(f)[i + 1].candidates[c].votes
    ensures History(f)[i].totalVotes <= History(f)[i + 1].totalVotes
  {
    var h := Snaps(f.rows);
    PointsMonotone(h, c, i + 1, i + 2);
    SumPointsMonotone(h, f.candidates, i + 1);
  }

  // ---------------------------------------------------------------------------------------------
  // `get_data`: summary and chart series

  /** `latest.get(f'{c}_...', default)` for every field of candidate `c`. */
  function Field(step: Step, c: Code): CandidateStep
  {
    if c in step.candidates then step.candidates[c] else CandidateStep(0.0, 0.0, "", 0.0)
  }

  /** One item of the `summary` list. */
  datatype SummaryItem = SummaryItem(code: Code, name: string, votes: real, cost: real, pct: real)

  function VotesKey(s: SummaryItem): real
  {
    s.votes
  }

  function ItemOf(latest: Step, c: Code): SummaryItem
  {
    var fld := Field(latest, c);
    SummaryItem(c, fld.name, fld.votes, fld.cost, fld.pct)
  }

  /** The summary items in candidate order, before sorting. */
  function Items(latest: Step, candidates: seq<Code>): (items: seq<SummaryItem>)
    ensures |items| == |candidates|
    ensures forall i :: 0 <= i < |candidates| ==> items[i] == ItemOf(latest, candidates[i])
  {
    seq(|candidates|, i requires 0 <= i < |candidates| => ItemOf(latest, candidates[i]))
  }

  /** `summary`: one item per candidate from the latest step, highest votes first. */
  function Summary(latest: Step, candidates: seq<Code>): seq<SummaryItem>
  {
    SortDesc(Items(latest, candidates), VotesKey)
  }

  function CodeOf(s: SummaryItem): Code
  {
    s.code
  }

  /** The codes of a list of summary items. */
  function Codes(items: seq<SummaryItem>): seq<Code>
  {
    Project(items, CodeOf)
  }

  lemma {:induction false} CodesOfItems(latest: Step, candidates: seq<Code>)
    ensures Codes(Items(latest, candidates)) == candidates
  {
    if candidates != [] {
      CodesOfItems(latest, candidates[1..]);
      assert Items(latest, candidates)[1..] == Items(latest, candidates[1..]);
      assert candidates == [candidates[0]] + candidates[1..];
    }
  }

  /** The summary lists every candidate exactly once, sorted by votes, highest first, each item
      carrying the latest step's fields. */
  lemma SummaryIsRanking(latest: Step, candidates: seq<Code>)
    ensures SortedDesc(Summary(latest, candidates), VotesKey)
    ensures multiset(Codes(Summary(latest, candidates))) == multiset(candidates)
    ensures forall s :: s in Summary(latest, candidates) ==> s == ItemOf(latest, s.code)
  {
    var items := Items(latest, candidates);
    SortDescSorted(items, VotesKey);
    ProjectSort(items, VotesKey, CodeOf);
    CodesOfItems(latest, candidates);
    forall s | s in Summary(latest, candidates) ensures s == ItemOf(latest, s.code) {
      assert s in multiset(Summary(latest, candidates));
      assert s in items;
    }
  }

  /** `series[c]`: the votes of `c` at every step. */
  function Series(history: seq<Step>, candidates: seq<Code>): (series: map<Code, seq<real>>)
    ensures series.Keys == set c | c in candidates
    ensures forall c :: c in series ==> |series[c]| == |history|
  {
    map c | c in candidates :: seq(|history|, i requires 0 <= i < |history| => Field(history[i], c).votes)
  }

  lemma SeriesAt(f: Frame, c: Code, j: nat)
    requires c in f.candidates && j < |f.rows|
    ensures Series(History(f), f.candidates)[c][j] == Points(Snaps(f.rows)[..j + 1], c)
  {
    var step := History(f)[j];
    assert step == StepAt(f, j);
    assert Field(step, c).votes == Points(Snaps(f.rows)[..j + 1], c);
  }

  /** Every chart line is the candidate's cumulative votes, and never goes down. */
  lemma SeriesNondecreasing(f: Frame, c: Code, i: nat, j: nat)
    requires c in f.candidates && i <= j < |f.rows|
    ensures Series(History(f), f.candidates)[c][j] == Points(Snaps(f.rows)[..j + 1], c)
    ensures Series(History(f), f.candidates)[c][i] <= Series(History(f), f.candidates)[c][j]
  {
    SeriesAt(f, c, i);
    SeriesAt(f, c, j);
    PointsMonotone(Snaps(f.rows), c, i + 1, j + 1);
  }

  // ---------------------------------------------------------------------------------------------
  // `get_data`: per-record differences

  /** The per-candidate fields of one `full_records` entry. */
  datatype CandidateDiff = CandidateDiff(votes: real, cost: real, pct: real, diffVotes: real, diffCost: real, diffPct: real)

  /** One `full_records` entry. */
  datatype FullRecord = FullRecord(time: int, totalVotes: real, totalChange: real, candidates: map<Code, CandidateDiff>)

  /** A candidate's fields against the previous step, all differences 0 when there is none. */
  function DiffOf(current: Step, prev: Option<Step>, c: Code): CandidateDiff
  {
    var cur := Field(current, c);
    match prev
    case None => CandidateDiff(cur.votes, cur.cost, cur.pct, 0.0, 0.0, 0.0)
    case Some(p) =>
      var before := Field(p, c);
      CandidateDiff(cur.votes, cur.cost, cur.pct, cur.votes - before.votes, cur.cost - before.cost, cur.pct - before.pct)
  }

  /** `prev.get('total_votes', 0) if prev else 0`. */
  function TotalBefore(prev: Option<Step>): real
  {
    match prev
    case None => 0.0
    case Some(p) => p.totalVotes
  }

  function Previous(history: seq<Step>, i: nat): Option<Step>
    requires i < |history|
  {
    if i > 0 then Some(history[i - 1]) else None
  }

  function RecordAt(history: seq<Step>, candidates: seq<Code>, i: nat): FullRecord
    requires i < |history|
  {
    var prev := Previous(history, i);
    FullRecord(history[i].time, history[i].totalVotes, history[i].totalVotes - TotalBefore(prev),
               map c | c in candidates :: DiffOf(history[i], prev, c))
  }

  /** `full_records`: one entry per step. */
  function FullRecords(history: seq<Step>, candidates: seq<Code>): (rs: seq<FullRecord>)
    ensures |rs| == |history|
  {
    seq(|history|, i requires 0 <= i < |history| => RecordAt(history, candidates, i))
  }

  /** The candidate loop of one `full_records` entry. */
  method CandidateDiffs(current: Step, prev: Option<Step>, candidates: seq<Code>) returns (diffs: map<Code, CandidateDiff>)
    ensures diffs == map c | c in candidates :: DiffOf(current, prev, c)
  {
    diffs := map[];
    for j := 0 to |candidates|
      invariant diffs == map c | c in candidates[..j] :: DiffOf(current, prev, c)
    {
      var c := candidates[j];
      var cur := Field(current, c);
      var diffVotes, diffCost, diffPct := 0.0, 0.0, 0.0;
      if prev.Some? {
        var before := Field(prev.value, c);
        diffVotes, diffCost, diffPct := cur.votes - before.votes, cur.cost - before.cost, cur.pct - before.pct;
      }
      diffs := diffs[c := CandidateDiff(cur.votes, cur.cost, cur.pct, diffVotes, diffCost, diffPct)];
      assert candidates[..j + 1] == candidates[..j] + [c];
    }
    assert candidates[..|candidates|] == candidates;
  }

  /** The loop building `full_records`. */
  method BuildFullRecords(history: seq<Step>, candidates: seq<Code>) returns (records: seq<FullRecord>)
    ensures records == FullRecords(history, candidates)
  {
    records := [];
    for i := 0 to |history|
      invariant records == FullRecords(history, candidates)[..i]
    {
      var current := history[i];
      var prev := if i > 0 then Some(history[i - 1]) else None;
      var diffs := CandidateDiffs(current, prev, candidates);
      var totalChange := current.totalVotes - (if prev.Some? then prev.value.totalVotes else 0.0);
      assert FullRecords(history, candidates)[..i + 1] == FullRecords(history, candidates)[..i] + [RecordAt(history, candidates, i)];
      records := records + [FullRecord(current.time, current.totalVotes, totalChange, diffs)];
    }
  }

  /** The first entry shows no difference; its total change is its whole total. */
  lemma FirstRecordHasNoDiff(history: seq<Step>, candidates: seq<Code>, c: Code)
    requires history != [] && c in candidates
    ensures FullRecords(history, candidates)[0].candidates[c].diffVotes == 0.0
    ensures FullRecords(history, candidates)[0].candidates[c].diffCost == 0.0
    ensures FullRecords(history, candidates)[0].candidates[c].diffPct == 0.0
    ensures FullRecords(history, candidates)[0].totalChange == history[0].totalVotes
  {
    assert FullRecords(history, candidates)[0] == RecordAt(history, candidates, 0);
  }

  /** On the reconstructed history a later entry's vote difference is exactly the votes the fold
      credited at that row, so never negative; costs follow votes, and the total never falls. */
  lemma DiffsAreGains(f: Frame, i: nat, c: Code)
    requires 0 < i < |f.rows| && c in f.candidates
    ensures FullRecords(History(f), f.candidates)[i].candidates[c].diffVotes
              == Reconstruct(Snaps(f.rows), f.candidates)[i].entries[c].pointsAdded
    ensures FullRecords(History(f), f.candidates)[i].candidates[c].diffVotes >= 0.0
    ensures FullRecords(History(f), f.candidates)[i].candidates[c].diffCost
              == FullRecords(History(f), f.candidates)[i].candidates[c].diffVotes * VoteCost
    ensures FullRecords(History(f), f.candidates)[i].totalChange >= 0.0
  {
    var h := Snaps(f.rows);
    RecordDiffs(f, i, c);
    PointsStep(h, c, i);
    EntryOf(h, f.candidates, i, c);
    SumPointsMonotone(h, f.candidates, i);
  }

  /** The differences of entry `i` against the ledger's points after `i` and after `i + 1` rows. */
  lemma RecordDiffs(f: Frame, i: nat, c: Code)
    requires 0 < i < |f.rows| && c in f.candidates
    ensures var r := FullRecords(History(f), f.candidates)[i];
            var h := Snaps(f.rows);
            && c in r.candidates
            && r.candidates[c].diffVotes == Points(h[..i + 1], c) - Points(h[..i], c)
            && r.candidates[c].diffCost == r.candidates[c].diffVotes * VoteCost
            && r.totalChange == SumPoints(h[..i + 1], f.candidates) - SumPoints(h[..i], f.candidates)
  {
    var h := Snaps(f.rows);
    var hs := History(f);
    assert FullRecords(hs, f.candidates)[i] == RecordAt(hs, f.candidates, i);
    assert hs[i] == StepAt(f, i) && hs[i - 1] == StepAt(f, i - 1);
    assert Field(hs[i], c).votes == Points(h[..i + 1], c);
    assert Field(hs[i - 1], c).votes == Points(h[..i], c);
  }

  // ---------------------------------------------------------------------------------------------
  // `get_data`: records grouped by date

  /** The `YYYY-MM-DD` part of a record's time, as a day number. */
  function DayOf(t: int): int
  {
    t / 86400
  }

  /** `sorted(dates, reverse=True)` and `sorted(records, key=time)`, as descending sorts. */
  function DateKey(d: int): real
  {
    d as real
  }

  function RecordTimeKey(r: FullRecord): real
  {
    -(r.time as real)
  }

  /** `grouped_history[d]`: the records of day `d`, in their original order. */
  function OfDay(rs: seq<FullRecord>, d: int): seq<FullRecord>
  {
    if rs == [] then []
    else OfDay(rs[..|rs| - 1], d) + (if DayOf(rs[|rs| - 1].time) == d then [rs[|rs| - 1]] else [])
  }

  /** The keys of `grouped_history` in insertion order: the distinct days, by first appearance. */
  function Days(rs: seq<FullRecord>): seq<int>
  {
    if rs == [] then []
    else
      var ds := Days(rs[..|rs| - 1]);
      var d := DayOf(rs[|rs| - 1].time);
      if d in ds then ds else ds + [d]
  }

  /** One `{date, records}` item of `hourly_history`. */
  datatype DateGroup = DateGroup(date: int, records: seq<FullRecord>)

  function GroupAt(rs: seq<FullRecord>, dates: seq<int>, k: nat): DateGroup
    requires k < |dates|
  {
    DateGroup(dates[k], SortDesc(OfDay(rs, dates[k]), RecordTimeKey))
  }

  /** The groups, newest date first, each holding its records in ascending time. */
  function GroupsOf(rs: seq<FullRecord>): (gs: seq<DateGroup>)
    ensures |gs| == |Days(rs)|
  {
    var dates := SortDesc(Days(rs), DateKey);
    seq(|dates|, k requires 0 <= k < |dates| => GroupAt(rs, dates, k))
  }

  lemma {:induction false} DaysAndOfDay(rs: seq<FullRecord>, d: int)
    ensures d in Days(rs) <==> OfDay(rs, d) != []
    ensures forall r :: r in OfDay(rs, d) <==> r in rs && DayOf(r.time) == d
  {
    if rs != [] {
      var init, last := rs[..|rs| - 1], rs[|rs| - 1];
      DaysAndOfDay(init, d);
      assert rs == init + [last];
    }
  }

  lemma {:induction false} DaysDistinct(rs: seq<FullRecord>)
    ensures forall i, j :: 0 <= i < j < |Days(rs)| ==> Days(rs)[i] != Days(rs)[j]
  {
    if rs != [] {
      DaysDistinct(rs[..|rs| - 1]);
    }
  }

  lemma OfDaySnoc(rs: seq<FullRecord>, i: nat, d: int)
    requires i < |rs|
    ensures OfDay(rs[..i + 1], d) == OfDay(rs[..i], d) + (if DayOf(rs[i].time) == d then [rs[i]] else [])
    ensures Days(rs[..i + 1]) == (if DayOf(rs[i].time) in Days(rs[..i]) then Days(rs[..i]) else Days(rs[..i]) + [DayOf(rs[i].time)])
  {
    assert rs[..i + 1][..i] == rs[..i];
  }

  /** `grouped_history` after the records `rs`. */
  function Grouped(rs: seq<FullRecord>): map<int, seq<FullRecord>>
  {
    map d | d in Days(rs) :: OfDay(rs, d)
  }

  /** Adding record `rs[i]` appends it to its day's list, opening the list when the day is new. */
  lemma GroupedSnoc(rs: seq<FullRecord>, i: nat)
    requires i < |rs|
    ensures var g, d := Grouped(rs[..i]), DayOf(rs[i].time);
            Grouped(rs[..i + 1]) == (if d in g then g[d := g[d] + [rs[i]]] else g[d := [rs[i]]])
  {
    var g, d := Grouped(rs[..i]), DayOf(rs[i].time);
    var expected := if d in g then g[d := g[d] + [rs[i]]] else g[d := [rs[i]]];
    OfDaySnoc(rs, i, d);
    DaysAndOfDay(rs[..i], d);
    forall d' | d' in Days(rs[..i + 1]) ensures d' in expected && OfDay(rs[..i + 1], d') == expected[d'] {
      OfDaySnoc(rs, i, d');
    }
    assert Grouped(rs[..i + 1]).Keys == expected.Keys;
  }

  /** The loop filling `grouped_history`: its keys in insertion order and, per key, the records
      of that day. */
  method FillGroups(rs: seq<FullRecord>) returns (grouped: map<int, seq<FullRecord>>, keys: seq<int>)
    ensures keys == Days(rs)
    ensures grouped == Grouped(rs)
  {
    grouped, keys := map[], [];
    for i := 0 to |rs|
      invariant keys == Days(rs[..i])
      invariant grouped == Grouped(rs[..i])
    {
      var d := DayOf(rs[i].time);
      FillStep(rs, i);
      if d !in grouped {
        grouped := grouped[d := []];
        keys := keys + [d];
      }
      grouped := grouped[d := grouped[d] + [rs[i]]];
    }
    assert rs[..|rs|] == rs;
  }

  /** One step of the filling loop, on the state it keeps: the day opened when new, then the record
      appended to it. */
  lemma FillStep(rs: seq<FullRecord>, i: nat)
    requires i < |rs|
    ensures var g, d := Grouped(rs[..i]), DayOf(rs[i].time);
            var g1 := if d !in g then g[d := []] else g;
            && d in g1
            && g1[d := g1[d] + [rs[i]]] == Grouped(rs[..i + 1])
            && (if d !in g then Days(rs[..i]) + [d] else Days(rs[..i])) == Days(rs[..i + 1])
  {
    var d := DayOf(rs[i].time);
    GroupedSnoc(rs, i);
    OfDaySnoc(rs, i, d);
  }

  lemma GroupsSnoc(rs: seq<FullRecord>, k: nat)
    requires k < |GroupsOf(rs)|
    ensures GroupsOf(rs)[..k + 1] == GroupsOf(rs)[..k] + [GroupAt(rs, SortDesc(Days(rs), DateKey), k)]
  {
    PrefixSnoc(GroupsOf(rs), k);
  }

  lemma PrefixSnoc<T>(s: seq<T>, k: nat)
    requires k < |s|
    ensures s[..k + 1] == s[..k] + [s[k]]
  {
  }

  /** `get_data`'s date grouping: fills the groups, then emits them newest date first with each
      group's records in ascending time. */
  method GroupByDate(rs: seq<FullRecord>) returns (groups: seq<DateGroup>)
    ensures groups == GroupsOf(rs)
  {
    var grouped, keys := FillGroups(rs);
    var dates := SortDesc(keys, DateKey);
    groups := [];
    for k := 0 to |dates|
      invariant groups == GroupsOf(rs)[..k]
    {
      var date := dates[k];
      assert date in multiset(keys);
      var recordsAsc := SortDesc(grouped[date], RecordTimeKey);
      GroupsSnoc(rs, k);
      groups := groups + [DateGroup(date, recordsAsc)];
    }
  }

  /** Newest date first, no date twice. */
  lemma GroupsDatesDescending(rs: seq<FullRecord>, k1: nat, k2: nat)
    requires k1 < k2 < |GroupsOf(rs)|
    ensures GroupsOf(rs)[k1].date > GroupsOf(rs)[k2].date
  {
    DaysDistinct(rs);
    DistinctSortedStrictly(Days(rs), k1, k2);
  }

  /** Sorting distinct dates newest first leaves no two equal neighbours. */
  lemma DistinctSortedStrictly(ds: seq<int>, k1: nat, k2: nat)
    requires forall i, j :: 0 <= i < j < |ds| ==> ds[i] != ds[j]
    requires k1 < k2 < |ds|
    ensures SortDesc(ds, DateKey)[k1] > SortDesc(ds, DateKey)[k2]
  {
    SortDescSorted(ds, DateKey);
    SortedStaysDistinct(ds, k1, k2);
  }

  lemma SortedStaysDistinct(ds: seq<int>, k1: nat, k2: nat)
    requires forall i, j :: 0 <= i < j < |ds| ==> ds[i] != ds[j]
    requires k1 < k2 < |ds|
    ensures SortDesc(ds, DateKey)[k1] != SortDesc(ds, DateKey)[k2]
  {
    var dates := SortDesc(ds, DateKey);
    assert dates[k1] in multiset(ds);
    var a :| 0 <= a < |ds| && ds[a] == dates[k1];
    MultisetOfDistinct(ds, a);
    assert multiset(dates)[dates[k1]] == 1;
    MultisetAtLeastTwo(dates, k1, k2);
  }

  lemma {:induction false} MultisetOfDistinct(s: seq<int>, a: nat)
    requires a < |s|
    requires forall i, j :: 0 <= i < j < |s| ==> s[i] != s[j]
    ensures multiset(s)[s[a]] == 1
  {
    assert s == s[..a] + [s[a]] + s[a + 1..];
    assert s[a] !in s[..a] && s[a] !in s[a + 1..];
    assert multiset(s[..a])[s[a]] == 0 && multiset(s[a + 1..])[s[a]] == 0;
  }

  lemma MultisetAtLeastTwo(s: seq<int>, i: nat, j: nat)
    requires i < j < |s|
    ensures s[i] == s[j] ==> multiset(s)[s[i]] >= 2
  {
    assert s == s[..i] + [s[i]] + s[i + 1..j] + [s[j]] + s[j + 1..];
  }

  /** Each group holds its records in ascending time. */
  lemma GroupRecordsAscending(rs: seq<FullRecord>, k: nat, i: nat, j: nat)
    requires k < |GroupsOf(rs)| && i <= j < |GroupsOf(rs)[k].records|
    ensures GroupsOf(rs)[k].records[i].time <= GroupsOf(rs)[k].records[j].time
  {
    var dates := SortDesc(Days(rs), DateKey);
    SortDescSorted(OfDay(rs, dates[k]), RecordTimeKey);
  }

  /** Partition: a record lies in a group exactly when it is one of the records and the group is
      that of its day; each group holds its day's records, each once per occurrence. */
  lemma GroupsPartition(rs: seq<FullRecord>, k: nat, r: FullRecord)
    requires k < |GroupsOf(rs)|
    ensures multiset(GroupsOf(rs)[k].records) == multiset(OfDay(rs, GroupsOf(rs)[k].date))
    ensures r in GroupsOf(rs)[k].records <==> r in rs && DayOf(r.time) == GroupsOf(rs)[k].date
  {
    var dates := SortDesc(Days(rs), DateKey);
    var g := GroupsOf(rs)[k];
    assert g == GroupAt(rs, dates, k);
    DaysAndOfDay(rs, dates[k]);
    assert r in g.records <==> r in multiset(g.records);
  }

  /** Every record has a group: the one of its day. */
  lemma EveryRecordGrouped(rs: seq<FullRecord>, r: FullRecord)
    requires r in rs
    ensures exists k :: 0 <= k < |GroupsOf(rs)| && GroupsOf(rs)[k].date == DayOf(r.time) && r in GroupsOf(rs)[k].records
  {
    var d := DayOf(r.time);
    DaysAndOfDay(rs, d);
    var dates := SortDesc(Days(rs), DateKey);
    assert d in multiset(dates);
    var k :| 0 <= k < |dates| && dates[k] == d;
    GroupsPartition(rs, k, r);
  }

  // ---------------------------------------------------------------------------------------------
  // `get_data`

  /** The JSON `get_data` returns, without the wall-clock timestamp and the projection. */
  datatype View = View(summary: seq<SummaryItem>, labels: seq<int>, series: map<Code, seq<real>>,
                       hourlyGrouped: seq<DateGroup>, totalVotes: real, totalMoney: real)

  /** The chart labels: the time of every step. */
  function Labels(history: seq<Step>): (labels: seq<int>)
    ensures |labels| == |history|
  {
    seq(|history|, i requires 0 <= i < |history| => history[i].time)
  }

  /** The dashboard built from a reconstructed history that has at least one step. */
  function ViewFrom(history: seq<Step>, candidates: seq<Code>): View
    requires history != []
  {
    var latest := history[|history| - 1];
    View(Summary(latest, candidates), Labels(history), Series(history, candidates),
         GroupsOf(FullRecords(history, candidates)), latest.totalVotes, latest.totalVotes * VoteCost)
  }

  function ViewOf(f: Frame): View
    requires f.rows != []
  {
    ViewFrom(History(f), f.candidates)
  }

  lemma ViewOfParts(history: seq<Step>, candidates: seq<Code>, records: seq<FullRecord>, hourly: seq<DateGroup>)
    requires history != []
    requires records == FullRecords(history, candidates) && hourly == GroupsOf(records)
    ensures ViewFrom(history, candidates)
         == View(Summary(history[|history| - 1], candidates), Labels(history), Series(history, candidates),
                 hourly, history[|history| - 1].totalVotes, history[|history| - 1].totalVotes * VoteCost)
  {
  }

  /** The part of `get_data` after the empty check: summary, chart data and the hourly table. */
  method BuildView(history: seq<Step>, candidates: seq<Code>) returns (view: View)
    requires history != []
    ensures view == ViewFrom(history, candidates)
  {
    var latest := history[|history| - 1];
    var fullRecords := BuildFullRecords(history, candidates);
    var hourly := GroupByDate(fullRecords);
    ViewOfParts(history, candidates, fullRecords, hourly);
    view := View(Summary(latest, candidates), Labels(history), Series(history, candidates),
                 hourly, latest.totalVotes, latest.totalVotes * VoteCost);
  }

  /** `get_data`: the error object when there is no history, otherwise the dashboard data. */
  method GetData(f: Frame) returns (r: Result<View, string>)
    ensures f.rows == [] ==> r == Failure("No data")
    ensures f.rows != [] ==> r == Success(ViewOf(f))
  {
    var history, candidates := ReconstructVotes(f);
    if history == [] {
      return Failure("No data");
    }
    var view := BuildView(history, candidates);
    r := Success(view);
  }

  /** The dashboard totals are the last ledger row's. */
  lemma ViewTotals(f: Frame)
    requires f.rows != []
    ensures ViewOf(f).totalVotes == SumPoints(Snaps(f.rows), f.candidates)
    ensures ViewOf(f).totalMoney == ViewOf(f).totalVotes * VoteCost
    ensures |ViewOf(f).labels| == |f.rows|
  {
    LastStepTotal(f);
    ViewFromTotals(History(f), f.candidates);
  }

  lemma LastStepTotal(f: Frame)
    requires f.rows != []
    ensures History(f)[|f.rows| - 1].totalVotes == SumPoints(Snaps(f.rows), f.candidates)
  {
    var n := |f.rows|;
    assert History(f)[n - 1] == StepAt(f, n - 1);
    assert Snaps(f.rows)[..n - 1 + 1] == Snaps(f.rows);
  }

  lemma ViewFromTotals(history: seq<Step>, candidates: seq<Code>)
    requires history != []
    ensures ViewFrom(history, candidates).totalVotes == history[|history| - 1].totalVotes
    ensures ViewFrom(history, candidates).totalMoney == ViewFrom(history, candidates).totalVotes * VoteCost
    ensures |ViewFrom(history, candidates).labels| == |history|
  {
  }
}
