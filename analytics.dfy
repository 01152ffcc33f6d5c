/**
 * The analytics dashboard: the number of records in each status, the
 * overview pie and the distribution bars built from those counts, the
 * investment totals of the "A bordo!" records and the flags that decide
 * whether each chart is drawn.
 */
module Analytics {
  import opened Wrappers
  import opened Values
  import opened ExcelParser
  import opened InvestorLists
  import KanbanConstants

  /** The dashboard's own copy of the six statuses: the board's list, in the same order. */
  const STATUSES: seq<string> := KanbanConstants.INVESTOR_STATUSES

  /** The status is one of the six. */
  predicate KnownStatus(inv: Investor) {
    exists k :: 0 <= k < |STATUSES| && inv.status == JStr(STATUSES[k])
  }

  /** `countByStatus`: for each status, the length of the list filtered to it. */
  function Counts(s: seq<Investor>): (c: seq<nat>)
    ensures |c| == |STATUSES|
  {
    seq(|STATUSES|, i requires 0 <= i < |STATUSES| => |InStatus(s, JStr(STATUSES[i]))|)
  }

  /** A chart entry: its label, its value and its colour. */
  datatype Entry = Entry(name: string, value: nat, fill: string)

  /** `statusOverviewData`: on board, dropped, and the four pipeline statuses together. */
  function StatusOverview(s: seq<Investor>): seq<Entry> {
    var c := Counts(s);
    [Entry("A bordo!", c[4], "#60A5FA"),
     Entry("Drop definitivo", c[5], "#EF4444"),
     Entry("In pipeline", c[0] + c[1] + c[2] + c[3], "#10B981")]
  }

  /** `distributionData`: one bar per status, the dropped one in red. */
  function Distribution(s: seq<Investor>): (d: seq<Entry>)
    ensures |d| == |STATUSES|
    ensures forall i :: 0 <= i < |d| ==> d[i].name == STATUSES[i] && d[i].value == Counts(s)[i]
    ensures forall i :: 0 <= i < |d| ==> (d[i].fill == "#EF4444" <==> i == 5)
  {
    seq(|STATUSES|, i requires 0 <= i < |STATUSES| =>
      Entry(STATUSES[i], Counts(s)[i], if i == 5 then "#EF4444" else "#9333EA"))
  }

  /** The pie has the three slices in order, and its values add up to the sum of all six counts. */
  lemma OverviewSlices(s: seq<Investor>)
    ensures var p, c := StatusOverview(s), Counts(s);
      && |p| == 3
      && p[0].name == KanbanConstants.ONBOARD_STATUS && p[0].value == |InStatus(s, JStr(KanbanConstants.ONBOARD_STATUS))|
      && p[1].name == KanbanConstants.DROPPED_STATUS && p[1].value == |InStatus(s, JStr(KanbanConstants.DROPPED_STATUS))|
      && p[0].value + p[1].value + p[2].value == c[0] + c[1] + c[2] + c[3] + c[4] + c[5]
  {
  }

  /**
   * When every record has one of the six statuses, the counts add up to
   * the number of records: each record is counted exactly once.
   */
  lemma {:induction false} CountsCoverList(s: seq<Investor>)
    requires forall i :: 0 <= i < |s| ==> KnownStatus(s[i])
    ensures var c := Counts(s); c[0] + c[1] + c[2] + c[3] + c[4] + c[5] == |s|
  {
    if s != [] {
      CountsCoverList(s[1..]);
      var k :| 0 <= k < |STATUSES| && s[0].status == JStr(STATUSES[k]);
      CountsStep(s, k);
      var c, c' := Counts(s), Counts(s[1..]);
      assert c[0] + c[1] + c[2] + c[3] + c[4] + c[5] == c'[0] + c'[1] + c'[2] + c'[3] + c'[4] + c'[5] + 1;
    }
  }

  /** The first record, of the status at index `k`, adds one to that count and nothing to the others. */
  lemma CountsStep(s: seq<Investor>, k: nat)
    requires s != [] && k < |STATUSES| && s[0].status == JStr(STATUSES[k])
    ensures forall i :: 0 <= i < |STATUSES| ==> Counts(s)[i] == Counts(s[1..])[i] + (if i == k then 1 else 0)
  {
    KanbanConstants.StatusTable();
    forall i | 0 <= i < |STATUSES|
      ensures Counts(s)[i] == Counts(s[1..])[i] + (if i == k then 1 else 0)
    {
      assert InStatus(s, JStr(STATUSES[i])) == StatusHead(s[0], JStr(STATUSES[i])) + InStatus(s[1..], JStr(STATUSES[i]));
      assert i != k ==> STATUSES[i] != STATUSES[k];
    }
  }

  /** The pie's slices add up to the number of records when every status is one of the six. */
  lemma PieTotalIsRecordCount(s: seq<Investor>)
    requires forall i :: 0 <= i < |s| ==> KnownStatus(s[i])
    ensures var p := StatusOverview(s); p[0].value + p[1].value + p[2].value == |s|
  {
    CountsCoverList(s);
  }

  // ---------------------------------------------------------------------
  // Investment totals.

  /** Which amount a total sums. */
  datatype Bound = MinAmount | MaxAmount

  function AmountAt(inv: Investor, b: Bound): Option<Num> {
    if b == MinAmount then inv.investmentMin else inv.investmentMax
  }

  /** `amount || 0`: absent, zero and NaN amounts count as 0. */
  function AmountOrZero(a: Option<Num>): (v: int)
    ensures a.Some? && a.value.Finite? ==> v == a.value.value
    ensures a.None? || a.value.NaN? ==> v == 0
  {
    if a.Some? && a.value.Finite? then a.value.value else 0
  }

  /** `reduce((sum, inv) => sum + (inv.amount || 0), acc)`, folding from the left. */
  function SumFrom(s: seq<Investor>, b: Bound, acc: int): int
    decreases |s|
  {
    if s == [] then acc else SumFrom(s[1..], b, acc + AmountOrZero(AmountAt(s[0], b)))
  }

  /** `totalMinInvestment` and `totalMaxInvestment`: the sum over the "A bordo!" records. */
  function OnboardTotal(s: seq<Investor>, b: Bound): int {
    SumFrom(InStatus(s, JStr(KanbanConstants.ONBOARD_STATUS)), b, 0)
  }

  /** Folding a list that grew at the end adds the new record's amount. */
  lemma {:induction false} SumFromSnoc(s: seq<Investor>, x: Investor, b: Bound, acc: int)
    ensures SumFrom(s + [x], b, acc) == SumFrom(s, b, acc) + AmountOrZero(AmountAt(x, b))
    decreases |s|
  {
    if s != [] {
      assert (s + [x])[1..] == s[1..] + [x];
      SumFromSnoc(s[1..], x, b, acc + AmountOrZero(AmountAt(s[0], b)));
    }
  }

  /**
   * The totals only see "A bordo!" records: a record added to the list
   * adds its amount (or 0) when it is on board and nothing otherwise.
   */
  lemma OnboardTotalSnoc(s: seq<Investor>, x: Investor, b: Bound)
    ensures x.status == JStr(KanbanConstants.ONBOARD_STATUS) ==>
      OnboardTotal(s + [x], b) == OnboardTotal(s, b) + AmountOrZero(AmountAt(x, b))
    ensures x.status != JStr(KanbanConstants.ONBOARD_STATUS) ==>
      OnboardTotal(s + [x], b) == OnboardTotal(s, b)
  {
    var st := JStr(KanbanConstants.ONBOARD_STATUS);
    InStatusAppend(s, [x], st);
    assert InStatus([x], st) == (if x.status == st then [x] else []) + InStatus([x][1..], st);
    if x.status == st {
      assert InStatus(s + [x], st) == InStatus(s, st) + [x];
      SumFromSnoc(InStatus(s, st), x, b, 0);
    } else {
      assert InStatus(s, st) + [] == InStatus(s, st);
    }
  }

  /** The fold with a larger start and pointwise larger amounts gives a larger sum. */
  lemma {:induction false} SumFromMonotone(s: seq<Investor>, accMin: int, accMax: int)
    requires accMin <= accMax
    requires forall i :: 0 <= i < |s| ==> AmountOrZero(s[i].investmentMin) <= AmountOrZero(s[i].investmentMax)
    ensures SumFrom(s, MinAmount, accMin) <= SumFrom(s, MaxAmount, accMax)
    decreases |s|
  {
    if s != [] {
      SumFromMonotone(s[1..], accMin + AmountOrZero(s[0].investmentMin), accMax + AmountOrZero(s[0].investmentMax));
    }
  }

  /** When no on-board record has a minimum above its maximum, the minimum total is at most the maximum total. */
  lemma MinTotalAtMostMax(s: seq<Investor>)
    requires forall i :: 0 <= i < |s| && s[i].status == JStr(KanbanConstants.ONBOARD_STATUS) ==>
      AmountOrZero(s[i].investmentMin) <= AmountOrZero(s[i].investmentMax)
    ensures OnboardTotal(s, MinAmount) <= OnboardTotal(s, MaxAmount)
  {
    var st := JStr(KanbanConstants.ONBOARD_STATUS);
    var t := InStatus(s, st);
    InStatusMembers(s, st);
    forall i | 0 <= i < |t|
      ensures AmountOrZero(t[i].investmentMin) <= AmountOrZero(t[i].investmentMax)
    {
      assert t[i] in t;
      var k :| 0 <= k < |s| && s[k] == t[i];
    }
    SumFromMonotone(t, 0, 0);
  }

  // ---------------------------------------------------------------------
  // Whether the charts are drawn.

  /** `distributionData.some(item => item.value > 0)`. */
  predicate HasValidDistributionData(s: seq<Investor>) {
    var d := Distribution(s);
    exists i :: 0 <= i < |d| && d[i].value > 0
  }

  /** `statusOverviewData.some(item => item.value > 0)`. */
  predicate HasValidPieData(s: seq<Investor>) {
    var p := StatusOverview(s);
    exists i :: 0 <= i < |p| && p[i].value > 0
  }

  /** A record with status `STATUSES[k]` makes the `k`-th count positive. */
  lemma RecordCounted(s: seq<Investor>, j: nat, k: nat)
    requires j < |s| && k < |STATUSES| && s[j].status == JStr(STATUSES[k])
    ensures Counts(s)[k] > 0
  {
    InStatusMembers(s, JStr(STATUSES[k]));
    assert s[j] in s;
  }

  /** A positive count comes from a record with that status. */
  lemma CountedRecord(s: seq<Investor>, k: nat) returns (j: nat)
    requires k < |STATUSES| && Counts(s)[k] > 0
    ensures j < |s| && s[j].status == JStr(STATUSES[k])
  {
    var t := InStatus(s, JStr(STATUSES[k]));
    InStatusMembers(s, JStr(STATUSES[k]));
    assert t[0] in t;
    j :| 0 <= j < |s| && s[j] == t[0];
  }

  /** Some status count is positive. */
  predicate SomeCounted(s: seq<Investor>) {
    var c := Counts(s);
    exists k :: 0 <= k < |c| && c[k] > 0
  }

  /** Some status count is positive exactly when some record has one of the six statuses. */
  lemma SomeCountedIff(s: seq<Investor>)
    ensures SomeCounted(s) <==> exists j :: 0 <= j < |s| && KnownStatus(s[j])
  {
    if exists j :: 0 <= j < |s| && KnownStatus(s[j]) {
      var j :| 0 <= j < |s| && KnownStatus(s[j]);
      var k :| 0 <= k < |STATUSES| && s[j].status == JStr(STATUSES[k]);
      RecordCounted(s, j, k);
    }
    if SomeCounted(s) {
      var c := Counts(s);
      var k :| 0 <= k < |c| && c[k] > 0;
      var j := CountedRecord(s, k);
      assert KnownStatus(s[j]);
    }
  }

  /** The bars are drawn exactly when some status count is positive. */
  lemma BarsShownIff(s: seq<Investor>)
    ensures HasValidDistributionData(s) <==> SomeCounted(s)
  {
    var d, c := Distribution(s), Counts(s);
    if SomeCounted(s) {
      var k :| 0 <= k < |c| && c[k] > 0;
      assert d[k].value > 0;
    }
  }

  /** The pie is drawn exactly when some status count is positive. */
  lemma PieShownIff(s: seq<Investor>)
    ensures HasValidPieData(s) <==> SomeCounted(s)
  {
    var p, c := StatusOverview(s), Counts(s);
    assert p[0].value == c[4] && p[1].value == c[5] && p[2].value == c[0] + c[1] + c[2] + c[3];
    assert HasValidPieData(s) <==> c[4] > 0 || c[5] > 0 || c[0] + c[1] + c[2] + c[3] > 0;
    if SomeCounted(s) {
      var k :| 0 <= k < |c| && c[k] > 0;
    }
  }

  /**
   * The bars are drawn exactly when some record has one of the six
   * statuses, and then the pie is drawn too.
   */
  lemma ChartsShownIff(s: seq<Investor>)
    ensures HasValidDistributionData(s) <==> exists j :: 0 <= j < |s| && KnownStatus(s[j])
    ensures HasValidPieData(s) <==> HasValidDistributionData(s)
  {
    SomeCountedIff(s);
    BarsShownIff(s);
    PieShownIff(s);
  }

  /** What the dashboard shows. */
  datatype View =
    | Placeholder
    | Dashboard(overview: seq<Entry>, distribution: seq<Entry>, totalMin: int, totalMax: int,
                showPie: bool, showBars: bool)

  /** The dashboard: a placeholder for an empty list, the charts and totals otherwise. */
  function AnalyticsView(s: seq<Investor>): (v: View)
    ensures v.Placeholder? <==> |s| == 0
    ensures v.Dashboard? ==> v.overview == StatusOverview(s) && v.distribution == Distribution(s)
    ensures v.Dashboard? ==> v.totalMin == OnboardTotal(s, MinAmount) && v.totalMax == OnboardTotal(s, MaxAmount)
    ensures v.Dashboard? ==> v.showPie == HasValidPieData(s) && v.showBars == HasValidDistributionData(s)
  {
    if |s| == 0 then Placeholder
    else Dashboard(StatusOverview(s), Distribution(s), OnboardTotal(s, MinAmount), OnboardTotal(s, MaxAmount),
                   HasValidPieData(s), HasValidDistributionData(s))
  }

  /** A non-empty list of records with known statuses shows both charts. */
  lemma KnownRecordsShowCharts(s: seq<Investor>)
    requires |s| > 0 && forall i :: 0 <= i < |s| ==> KnownStatus(s[i])
    ensures AnalyticsView(s).Dashboard? && AnalyticsView(s).showPie && AnalyticsView(s).showBars
  {
    ChartsShownIff(s);
    assert KnownStatus(s[0]);
  }
}
