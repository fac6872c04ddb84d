/** The gold-spend-by-age dashboard: age and decade brackets written into
    the frame, the age filter, the totals, and the insight blocks built from
    the mean gold spend of every bracket. */
module GoldDashboard {
  import opened Wrappers
  import opened Rows
  import opened Stats

  /** The loaded columns' integer widths: `Year_Birth` is int16 and
      `MntGoldProds` int32. */
  type Int16 = x: int | -0x8000 <= x < 0x8000
  type Int32 = x: int | -0x8000_0000 <= x < 0x8000_0000

  /** Two's-complement wrap-around into int16. */
  function Wrap16(x: int): (r: Int16)
    ensures (r - x) % 0x1_0000 == 0
    ensures -0x8000 <= x < 0x8000 ==> r == x
  {
    (x + 0x8000) % 0x1_0000 - 0x8000
  }

  /** `current_year - df['Year_Birth']`, computed in int16 arithmetic; the
      reference year is a parameter instead of the clock. */
  function Age(refYear: Int16, yearBirth: Int16): (a: Int16)
    ensures -0x8000 <= refYear - yearBirth < 0x8000 ==> a == refYear - yearBirth
  {
    Wrap16(refYear - yearBirth)
  }

  /** The bin edges and labels handed to `pd.cut`. */
  const BINS: seq<int> := [20, 30, 40, 50, 60, 70, 80, 90, 100]
  const LABELS: seq<string> := ["20-30", "30-40", "40-50", "50-60", "60-70", "70-80", "80-90", "90-100"]
  const BRACKET_COUNT := 8

  /** A bracket, by its position among the labels. */
  type Bracket = k: int | 0 <= k < 8

  function Lower(k: Bracket): int { BINS[k] }
  function Upper(k: Bracket): int { BINS[k + 1] }

  /** The first bin from `k` on that holds `a`, with the lower edge included
      and the upper one excluded (`right=False`). */
  function FindBin(a: int, k: nat): Option<Bracket>
    requires k <= BRACKET_COUNT
    decreases BRACKET_COUNT - k
  {
    if k == BRACKET_COUNT then None
    else if BINS[k] <= a < BINS[k + 1] then Some(k)
    else FindBin(a, k + 1)
  }

  /** `pd.cut(age, bins=BINS, right=False)`; an age outside every bin gets no bracket. */
  function BracketOf(a: int): Option<Bracket>
  {
    FindBin(a, 0)
  }

  lemma {:induction false} FindBinArithmetic(a: int, k: nat)
    requires k <= BRACKET_COUNT
    ensures FindBin(a, k) == if BINS[k] <= a < 100 then Some(a / 10 - 2) else None
    decreases BRACKET_COUNT - k
  {
    if k < BRACKET_COUNT {
      FindBinArithmetic(a, k + 1);
    }
  }

  /** An age a with 20 <= a < 100 falls into the bracket whose lower edge is
      10 * (a div 10); any other age falls into none. */
  lemma BracketOfSpec(a: int)
    ensures BracketOf(a).Some? <==> 20 <= a < 100
    ensures BracketOf(a).Some? ==> Lower(BracketOf(a).value) == 10 * (a / 10)
    ensures BracketOf(a).Some? ==> Lower(BracketOf(a).value) <= a < Upper(BracketOf(a).value)
  {
    FindBinArithmetic(a, 0);
  }

  /** The brackets partition [20, 100): an age is in bracket k exactly when
      it lies in k's right-open interval, so no age is in two brackets. */
  lemma BracketMembership(a: int, k: Bracket)
    ensures BracketOf(a) == Some(k) <==> Lower(k) <= a < Upper(k)
  {
    FindBinArithmetic(a, 0);
  }

  /** Decimal spelling of a natural number. */
  function Decimal(n: nat): string
  {
    if n < 10 then ["0123456789"[n]] else Decimal(n / 10) + ["0123456789"[n % 10]]
  }

  /** Each label is "L-U" spelled from its bracket's edges. */
  lemma LabelsSpellEdges(k: Bracket)
    ensures LABELS[k] == Decimal(Lower(k)) + "-" + Decimal(Upper(k))
  {
    assert Decimal(100) == Decimal(10) + "0";
    assert Decimal(10) == "10";
  }

  /** One loaded row. */
  datatype GoldRecord = GoldRecord(yearBirth: Int16, gold: Int32)

  /** A row once `Age` and `Faixa_Etaria` have been written. */
  datatype AgedRecord = AgedRecord(yearBirth: Int16, gold: Int32, age: Int16, bracket: Option<Bracket>)

  /** The rows with their age and bracket. */
  function AgedTable(records: seq<GoldRecord>, refYear: Int16): (t: seq<AgedRecord>)
    ensures |t| == |records|
  {
    seq(|records|, i requires 0 <= i < |records| =>
      var age := Age(refYear, records[i].yearBirth);
      AgedRecord(records[i].yearBirth, records[i].gold, age, BracketOf(age)))
  }

  /** The loaded frame, column by column; the `Age` and `Faixa_Etaria`
      columns exist once `derived` holds. */
  class GoldFrame {
    var records: seq<GoldRecord>
    var age: seq<Int16>
    var faixa: seq<Option<Bracket>>
    var derived: bool

    ghost predicate Valid()
      reads this
    {
      derived ==> |age| == |records| && |faixa| == |records|
    }

    constructor (records: seq<GoldRecord>)
      ensures Valid() && this.records == records && !derived
    {
      this.records := records;
      age := [];
      faixa := [];
      derived := false;
    }

    /** `calculate_age_and_groups`: writes the two columns into the frame. */
    method CalculateAgeAndGroups(refYear: Int16)
      modifies this
      ensures Valid() && derived && records == old(records)
      ensures forall i :: 0 <= i < |records| ==> age[i] == Age(refYear, records[i].yearBirth)
      ensures forall i :: 0 <= i < |records| ==> faixa[i] == BracketOf(age[i])
      ensures Table() == AgedTable(records, refYear)
    {
      var current := records;
      age := seq(|current|, i requires 0 <= i < |current| => Age(refYear, current[i].yearBirth));
      var ages := age;
      faixa := seq(|ages|, i requires 0 <= i < |ages| => BracketOf(ages[i]));
      derived := true;
      assert forall i :: 0 <= i < |records| ==> Table()[i] == AgedTable(records, refYear)[i];
    }

    /** The frame as rows. */
    function Table(): (t: seq<AgedRecord>)
      reads this
      requires Valid() && derived
      ensures |t| == |records|
    {
      var rs, ages, brackets := records, age, faixa;
      seq(|rs|, i requires 0 <= i < |rs| => AgedRecord(rs[i].yearBirth, rs[i].gold, ages[i], brackets[i]))
    }
  }

  /** The age slider's `between(lo, hi)` mask. */
  function AgeWithin(lo: int, hi: int): AgedRecord -> bool
  {
    (r: AgedRecord) => lo <= r.age <= hi
  }

  function AgeFilter(rows: seq<AgedRecord>, lo: int, hi: int): seq<AgedRecord>
  {
    Filter(rows, AgeWithin(lo, hi))
  }

  /** The age selection keeps exactly the rows with lo <= Age <= hi, in order. */
  lemma AgeFilterSpec(rows: seq<AgedRecord>, lo: int, hi: int)
    ensures forall i :: 0 <= i < |AgeFilter(rows, lo, hi)| ==> lo <= AgeFilter(rows, lo, hi)[i].age <= hi
    ensures forall r :: multiset(AgeFilter(rows, lo, hi))[r] == if lo <= r.age <= hi then multiset(rows)[r] else 0
    ensures IsSubseq(AgeFilter(rows, lo, hi), rows)
  {
    FilterMultiset(rows, AgeWithin(lo, hi));
    FilterIsSubseq(rows, AgeWithin(lo, hi));
  }

  /** The `MntGoldProds` column. */
  function Gold(rows: seq<AgedRecord>): (xs: seq<int>)
    ensures |xs| == |rows|
  {
    seq(|rows|, i requires 0 <= i < |rows| => rows[i].gold as int)
  }

  /** The mask `Faixa_Etaria == k`. */
  function InBracket(k: Bracket): AgedRecord -> bool
  {
    (r: AgedRecord) => r.bracket == Some(k)
  }

  /** The group mean of bracket `k`; undefined, not zero, for an empty bracket. */
  function BracketMean(rows: seq<AgedRecord>, k: Bracket): Option<real>
  {
    Mean(Gold(Filter(rows, InBracket(k))))
  }

  /** `groupby('Faixa_Etaria', observed=False)['MntGoldProds'].mean()`: one
      entry per bracket, in bracket order, empty brackets included. */
  function BracketMeans(rows: seq<AgedRecord>): (ms: seq<Option<real>>)
    ensures |ms| == BRACKET_COUNT
  {
    seq(BRACKET_COUNT, k requires 0 <= k < BRACKET_COUNT => BracketMean(rows, k))
  }

  /** A bracket's mean is undefined exactly when no row is in the bracket. */
  lemma BracketMeanSpec(rows: seq<AgedRecord>, k: Bracket)
    ensures BracketMean(rows, k).None? <==> forall r :: r in rows ==> r.bracket != Some(k)
  {
    FilterMembership(rows, InBracket(k));
  }

  /** `idxmax`: the first position holding the largest defined value. */
  function FirstMaxIndex(ms: seq<Option<real>>): (r: Option<nat>)
    ensures r.None? <==> forall i :: 0 <= i < |ms| ==> ms[i].None?
    ensures r.Some? ==> r.value < |ms| && ms[r.value].Some?
    ensures r.Some? ==> forall i :: 0 <= i < |ms| && ms[i].Some? ==> ms[i].value <= ms[r.value].value
    ensures r.Some? ==> forall i :: 0 <= i < r.value && ms[i].Some? ==> ms[i].value < ms[r.value].value
  {
    if ms == [] then None
    else
      var last := |ms| - 1;
      var best := FirstMaxIndex(ms[..last]);
      if ms[last].None? then best
      else if best.None? then Some(last)
      else if ms[last].value > ms[best.value].value then Some(last)
      else best
  }

  /** `min()`: the smallest defined value. */
  function MinValue(ms: seq<Option<real>>): (r: Option<real>)
    ensures r.None? <==> forall i :: 0 <= i < |ms| ==> ms[i].None?
    ensures r.Some? ==> exists i :: 0 <= i < |ms| && ms[i] == r
    ensures r.Some? ==> forall i :: 0 <= i < |ms| && ms[i].Some? ==> r.value <= ms[i].value
  {
    if ms == [] then None
    else
      var last := |ms| - 1;
      var low := MinValue(ms[..last]);
      if ms[last].None? then low
      else if low.None? || ms[last].value < low.value then ms[last]
      else low
  }

  /** One line of the second block: a bracket's label and its mean. */
  datatype BracketLine = BracketLine(name: string, mean: Option<real>)

  /** The three blocks without their markup: the bracket with the largest
      mean and that mean, the spread between the largest and the smallest
      mean, and one line per bracket. */
  datatype InsightBlocks = InsightBlocks(
    topBracket: Option<Bracket>,
    topMean: Option<real>,
    spread: Option<real>,
    lines: seq<BracketLine>)

  /** The blocks that the rows call for. */
  function InsightBlocksOf(rows: seq<AgedRecord>): InsightBlocks
  {
    var means := BracketMeans(rows);
    var top := FirstMaxIndex(means);
    var topMean := if top.Some? then means[top.value] else None;
    var low := MinValue(means);
    InsightBlocks(
      if top.Some? then Some(top.value) else None,
      topMean,
      if topMean.Some? && low.Some? then Some(topMean.value - low.value) else None,
      seq(BRACKET_COUNT, k requires 0 <= k < BRACKET_COUNT => BracketLine(LABELS[k], means[k])))
  }

  /** The top bracket is the first one whose defined mean is the largest; it
      exists exactly when some row has a bracket; the spread is never
      negative; and there is one line per bracket, in bracket order. */
  lemma InsightBlocksSpec(rows: seq<AgedRecord>)
    ensures var b := InsightBlocksOf(rows);
      && (b.topBracket.Some? <==> exists r :: r in rows && r.bracket.Some?)
      && (b.topBracket.Some? ==>
            && b.topMean == BracketMean(rows, b.topBracket.value) && b.topMean.Some?
            && (forall k: Bracket :: BracketMean(rows, k).Some? ==> BracketMean(rows, k).value <= b.topMean.value)
            && (forall k: Bracket :: k < b.topBracket.value && BracketMean(rows, k).Some? ==> BracketMean(rows, k).value < b.topMean.value))
      && (b.spread.Some? <==> b.topBracket.Some?)
      && (b.spread.Some? ==> b.spread.value >= 0.0)
      && |b.lines| == BRACKET_COUNT
      && (forall k: Bracket :: b.lines[k] == BracketLine(LABELS[k], BracketMean(rows, k)))
  {
    var means := BracketMeans(rows);
    forall k: Bracket ensures means[k] == BracketMean(rows, k) {}
    forall k: Bracket ensures means[k].None? <==> forall r :: r in rows ==> r.bracket != Some(k) {
      BracketMeanSpec(rows, k);
    }
    if r :| r in rows && r.bracket.Some? {
      assert means[r.bracket.value].Some?;
    }
  }

  /** `generate_insight_blocks`: the second block grows one line per
      bracket. */
  method GenerateInsightBlocks(rows: seq<AgedRecord>) returns (blocks: InsightBlocks)
    ensures blocks == InsightBlocksOf(rows)
  {
    var means := BracketMeans(rows);
    var top := FirstMaxIndex(means);
    var topMean := if top.Some? then means[top.value] else None;
    var spread := if topMean.Some? then Some(topMean.value - MinValue(means).value) else None;
    var lines: seq<BracketLine> := [];
    for k := 0 to BRACKET_COUNT
      invariant |lines| == k
      invariant forall j :: 0 <= j < k ==> lines[j] == BracketLine(LABELS[j], means[j])
    {
      lines := lines + [BracketLine(LABELS[k], means[k])];
    }
    blocks := InsightBlocks(if top.Some? then Some(top.value) else None, topMean, spread, lines);
  }

  /** What the page shows, apart from charts and formatting. */
  datatype GoldView = GoldView(filtered: seq<AgedRecord>, totalGold: int, meanGold: Option<real>, blocks: InsightBlocks)

  /** `main` on the loaded rows; `lo`..`hi` is the age slider's result. The
      totals cover the selected rows, while the blocks are built from every
      row, whatever the slider says. */
  method Dashboard(records: seq<GoldRecord>, refYear: Int16, lo: int, hi: int) returns (view: Option<GoldView>)
    ensures view.None? <==> records == []
    ensures view.Some? ==> view.value.filtered == AgeFilter(AgedTable(records, refYear), lo, hi)
    ensures view.Some? ==> view.value.totalGold == Sum(Gold(view.value.filtered))
    ensures view.Some? ==> view.value.meanGold == Mean(Gold(view.value.filtered))
    ensures view.Some? ==> view.value.blocks == InsightBlocksOf(AgedTable(records, refYear))
  {
    if records == [] {
      return None;
    }
    var df := new GoldFrame(records);
    df.CalculateAgeAndGroups(refYear);
    var table := df.Table();
    var filtered := AgeFilter(table, lo, hi);
    var total := Sum(Gold(filtered));
    var average := Mean(Gold(filtered));
    var blocks := GenerateInsightBlocks(table);
    view := Some(GoldView(filtered, total, average, blocks));
  }
}
