/** The summary the vote scrapers attach to a fetched page: one entry per chart label, zipping the
    label with the percentage at the same position (0 past the end of the data) and with the couple
    listed under that code (empty names and series when none is), stably sorted by percentage from
    the highest; and the `ranking` lines built from the sorted summary. */
module VoteSummary {
  import opened Wrappers
  import opened Sorting
  import opened Strings
  import opened Transport

  /** One `summary` entry. */
  datatype SummaryItem = SummaryItem(code: string, percentage: real, names: string, series: string)

  /** The object a fetch returns; an absent key is None. The fetch time is left out. */
  datatype VoteResult = VoteResult(url: Option<string>, category: Option<string>, votes: ChartData,
                                   couples: map<string, Couple>, summary: Option<seq<SummaryItem>>,
                                   ranking: Option<seq<string>>)

  function PercentageKey(item: SummaryItem): real
  {
    item.percentage
  }

  /** The entry for label `i`, before sorting. */
  function ItemAt(chart: ChartData, couples: map<string, Couple>, i: nat): SummaryItem
    requires i < |chart.labels|
  {
    var lbl := chart.labels[i];
    var info := if lbl in couples then couples[lbl] else Couple("", "");
    SummaryItem(lbl, if i < |chart.data| then chart.data[i] else 0.0, info.names, info.series)
  }

  /** The entries in label order, as appended. */
  function Items(chart: ChartData, couples: map<string, Couple>): (items: seq<SummaryItem>)
    ensures |items| == |chart.labels|
  {
    seq(|chart.labels|, i requires 0 <= i < |chart.labels| => ItemAt(chart, couples, i))
  }

  /** The summary: the entries sorted by percentage, highest first, ties in label order. */
  function SummaryOf(chart: ChartData, couples: map<string, Couple>): seq<SummaryItem>
  {
    SortDesc(Items(chart, couples), PercentageKey)
  }

  /** The append loop and the in-place sort. */
  method BuildSummary(chart: ChartData, couples: map<string, Couple>) returns (summary: seq<SummaryItem>)
    ensures summary == SummaryOf(chart, couples)
  {
    summary := [];
    var labels := chart.labels;
    var percentages := chart.data;
    for i := 0 to |labels|
      invariant summary == Items(chart, couples)[..i]
    {
      var lbl := labels[i];
      var coupleInfo := if lbl in couples then couples[lbl] else Couple("", "");
      summary := summary + [SummaryItem(lbl, if i < |percentages| then percentages[i] else 0.0,
                                        coupleInfo.names, coupleInfo.series)];
    }
    assert summary == Items(chart, couples);
    summary := SortDesc(summary, PercentageKey);
  }

  function CodeOf(item: SummaryItem): string
  {
    item.code
  }

  /** The codes of a list of entries. */
  function Codes(items: seq<SummaryItem>): seq<string>
  {
    Project(items, CodeOf)
  }

  lemma {:induction false} CodesOfItems(chart: ChartData, couples: map<string, Couple>, k: nat)
    requires k <= |chart.labels|
    ensures Codes(Items(chart, couples)[k..]) == chart.labels[k..]
    decreases |chart.labels| - k
  {
    if k < |chart.labels| {
      CodesOfItems(chart, couples, k + 1);
      assert Items(chart, couples)[k..][1..] == Items(chart, couples)[k + 1..];
      assert chart.labels[k..] == [chart.labels[k]] + chart.labels[k + 1..];
    }
  }

  /** One entry per label, sorted by percentage from the highest. */
  lemma SummaryIsRanking(chart: ChartData, couples: map<string, Couple>)
    ensures |SummaryOf(chart, couples)| == |chart.labels|
    ensures multiset(Codes(SummaryOf(chart, couples))) == multiset(chart.labels)
    ensures SortedDesc(SummaryOf(chart, couples), PercentageKey)
  {
    var items := Items(chart, couples);
    SortDescSorted(items, PercentageKey);
    ProjectSort(items, PercentageKey, CodeOf);
    CodesOfItems(chart, couples, 0);
    assert items[0..] == items;
    assert chart.labels[0..] == chart.labels;
  }

  /** Every entry is a label zipped with its percentage (0 past the end of the data) and its couple
      (empty strings when not listed). */
  lemma SummaryEntries(chart: ChartData, couples: map<string, Couple>, s: SummaryItem)
    requires s in SummaryOf(chart, couples)
    ensures exists i :: 0 <= i < |chart.labels| && s == ItemAt(chart, couples, i)
  {
    var items := Items(chart, couples);
    assert s in multiset(SortDesc(items, PercentageKey));
    assert s in items;
  }

  /** Entries with equal percentages keep the order of their labels. */
  lemma SummaryIsStable(chart: ChartData, couples: map<string, Couple>, p: real)
    ensures WithKey(SummaryOf(chart, couples), PercentageKey, p) == WithKey(Items(chart, couples), PercentageKey, p)
  {
    SortDescIsStable(Items(chart, couples), PercentageKey, p);
  }

  /** A label past the end of the data gets 0 percent; one not among the couples gets empty names and series. */
  lemma ItemDefaults(chart: ChartData, couples: map<string, Couple>, i: nat)
    requires i < |chart.labels|
    ensures i >= |chart.data| ==> ItemAt(chart, couples, i).percentage == 0.0
    ensures i < |chart.data| ==> ItemAt(chart, couples, i).percentage == chart.data[i]
    ensures chart.labels[i] !in couples ==> ItemAt(chart, couples, i).names == "" && ItemAt(chart, couples, i).series == ""
  {
  }

  // ---------------------------------------------------------------------------------------------
  // Ranking lines

  function DigitChar(d: nat): (ch: char)
    requires d < 10
    ensures '0' <= ch <= '9' && ch as int - '0' as int == d
  {
    ('0' as int + d) as char
  }

  /** `str(n)` for a natural number. */
  function NatText(n: nat): (s: string)
    ensures |s| >= 1
    ensures forall k :: 0 <= k < |s| ==> '0' <= s[k] <= '9'
  {
    if n < 10 then [DigitChar(n)] else NatText(n / 10) + [DigitChar(n % 10)]
  }

  /** The value of a string of decimal digits. */
  function DigitsValue(s: string): nat
    requires forall k :: 0 <= k < |s| ==> '0' <= s[k] <= '9'
  {
    if s == [] then 0 else DigitsValue(s[..|s| - 1]) * 10 + (s[|s| - 1] as int - '0' as int)
  }

  lemma {:induction false} NatTextValue(n: nat)
    ensures DigitsValue(NatText(n)) == n
  {
    if n >= 10 {
      NatTextValue(n / 10);
      var s := NatText(n);
      assert s[..|s| - 1] == NatText(n / 10);
      assert s[|s| - 1] == DigitChar(n % 10);
    } else {
      assert NatText(n)[..0] == [];
    }
  }

  /** `f"#{i+1} {code}: {percentage}% - {names}"`, the float formatted by `show`. */
  function RankingLine(i: nat, item: SummaryItem, show: real -> string): string
  {
    "#" + NatText(i + 1) + " " + item.code + ": " + show(item.percentage) + "% - " + item.names
  }

  function Ranking(summary: seq<SummaryItem>, show: real -> string): (ranking: seq<string>)
    ensures |ranking| == |summary|
  {
    seq(|summary|, i requires 0 <= i < |summary| => RankingLine(i, summary[i], show))
  }

  lemma {:induction false} ContainsAfter(prefix: string, sub: string, suffix: string)
    ensures Contains(prefix + sub + suffix, sub)
    decreases |prefix|
  {
    var s := prefix + sub + suffix;
    if prefix == [] {
      assert s[..|sub|] == sub;
    } else {
      assert s[1..] == prefix[1..] + sub + suffix;
      ContainsAfter(prefix[1..], sub, suffix);
    }
  }

  /** Line `i` starts with `#` and the position `i + 1`, which reads back as `i + 1`, and names the
      entry's code and couple. */
  lemma RankingLines(summary: seq<SummaryItem>, show: real -> string, i: nat)
    requires i < |summary|
    ensures Ranking(summary, show)[i][0] == '#'
    ensures var digits := NatText(i + 1);
            Ranking(summary, show)[i][1..|digits| + 1] == digits && DigitsValue(digits) == i + 1
    ensures Contains(Ranking(summary, show)[i], summary[i].code)
    ensures Contains(Ranking(summary, show)[i], summary[i].names)
  {
    var item := summary[i];
    var digits := NatText(i + 1);
    var line := Ranking(summary, show)[i];
    NatTextValue(i + 1);
    assert line == "#" + digits + " " + item.code + ": " + show(item.percentage) + "% - " + item.names;
    assert line[1..|digits| + 1] == digits;
    ContainsAfter("#" + digits + " ", item.code, ": " + show(item.percentage) + "% - " + item.names);
    assert line == ("#" + digits + " ") + item.code + (": " + show(item.percentage) + "% - " + item.names);
    ContainsAfter("#" + digits + " " + item.code + ": " + show(item.percentage) + "% - ", item.names, "");
    assert line == ("#" + digits + " " + item.code + ": " + show(item.percentage) + "% - ") + item.names + "";
  }
}
