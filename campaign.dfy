/** The complaints-versus-spending dashboard: loading with its derived
    columns, the enrolment-year and complaint filters, the metrics of the two
    complaint cohorts and the generated insight text. */
module CampaignDashboard {
  import opened Wrappers
  import opened Rows
  import opened Stats

  const COMPLAIN := "Complain"
  const DT_CUSTOMER := "Dt_Customer"
  const WINES := "MntWines"
  const FRUITS := "MntFruits"
  const MEAT := "MntMeatProducts"
  const FISH := "MntFishProducts"
  const SWEET := "MntSweetProducts"
  const GOLD := "MntGoldProds"
  const REGULAR := "MntRegularProds"
  const ENROLMENT_YEAR := "Ano_Inscricao"

  /** The columns loading insists on. */
  const REQUIRED: seq<string> := [COMPLAIN, DT_CUSTOMER, WINES, FRUITS, MEAT, FISH, SWEET, GOLD]

  /** The columns of a successfully loaded frame, in order. */
  const LOADED_COLUMNS: seq<string> := [COMPLAIN, ENROLMENT_YEAR, REGULAR]

  /** The complaint dropdown's entries. */
  const ALL := "Todos"
  const COMPLAINED := "Reclamaram"
  const NOT_COMPLAINED := "Não Reclamaram"

  /** A customer date, already parsed. */
  datatype Date = Date(year: int, month: int, day: int)

  /** One row of the raw frame; a missing cell is `None`. `regular` is the
      `MntRegularProds` column and `enrolmentYear` the `Ano_Inscricao` one. */
  datatype Customer = Customer(
    complain: Option<int>,
    dtCustomer: Option<Date>,
    wines: Option<int>,
    fruits: Option<int>,
    meat: Option<int>,
    fish: Option<int>,
    sweet: Option<int>,
    gold: Option<int>,
    regular: Option<int>,
    enrolmentYear: Option<int>)

  /** A cell's contribution to a row-wise `sum(axis=1)`: missing counts as 0. */
  function Cell(v: Option<int>): int
  {
    if v.Some? then v.value else 0
  }

  /** The six spend columns summed across the row, skipping missing cells as
      pandas does, so the total itself is never missing. */
  function RegularTotal(c: Customer): int
  {
    Cell(c.wines) + Cell(c.fruits) + Cell(c.meat) + Cell(c.fish) + Cell(c.sweet) + Cell(c.gold)
  }

  /** One row of the `MntRegularProds` step when the column is absent. */
  function AddTotal(c: Customer): Customer
  {
    c.(regular := Some(RegularTotal(c)))
  }

  /** The frame after the `MntRegularProds` step: the column is added only
      when it is absent. */
  function WithRegularTotal(columns: set<string>, rows: seq<Customer>): (set<string>, seq<Customer>)
  {
    if REGULAR in columns then (columns, rows)
    else (columns + {REGULAR}, Map(rows, AddTotal))
  }

  /** Deriving the total leaves an existing column untouched, otherwise fills
      it for every row with the six-column sum; so deriving twice is deriving
      once. */
  lemma WithRegularTotalSpec(columns: set<string>, rows: seq<Customer>)
    ensures var (c, r) := WithRegularTotal(columns, rows);
      && c == columns + {REGULAR}
      && |r| == |rows|
      && (REGULAR in columns ==> r == rows)
      && (REGULAR !in columns ==> forall i :: 0 <= i < |r| ==> r[i].regular == Some(RegularTotal(rows[i])))
      && WithRegularTotal(c, r) == (c, r)
  {
  }

  /** The year part of a date column; a missing date has no year. */
  function YearOf(d: Option<Date>): Option<int>
  {
    if d.Some? then Some(d.value.year) else None
  }

  /** One row of the `Ano_Inscricao` step. */
  function AddYear(c: Customer): Customer
  {
    c.(enrolmentYear := YearOf(c.dtCustomer))
  }

  /** The frame after `df['Ano_Inscricao'] = df['Dt_Customer'].dt.year`. */
  function WithEnrolmentYear(rows: seq<Customer>): (r: seq<Customer>)
    ensures |r| == |rows|
  {
    Map(rows, AddYear)
  }

  /** The frame that `load_data` builds from the file's contents and changes
      in place. */
  class Table {
    var columns: set<string>
    var rows: seq<Customer>

    constructor (columns: set<string>, rows: seq<Customer>)
      ensures this.columns == columns && this.rows == rows
    {
      this.columns := columns;
      this.rows := rows;
    }

    /** `df['MntRegularProds'] = df[six spend columns].sum(axis=1)`, only if
        the column is absent. */
    method AddRegularTotal()
      modifies this
      ensures (columns, rows) == WithRegularTotal(old(columns), old(rows))
    {
      if REGULAR !in columns {
        rows := Map(rows, AddTotal);
        columns := columns + {REGULAR};
      }
    }

    /** `df['Ano_Inscricao'] = pd.to_datetime(df['Dt_Customer']).dt.year`. */
    method AddEnrolmentYear()
      modifies this
      ensures columns == old(columns) + {ENROLMENT_YEAR}
      ensures rows == WithEnrolmentYear(old(rows))
    {
      rows := Map(rows, AddYear);
      columns := columns + {ENROLMENT_YEAR};
    }
  }

  /** A row of the loaded frame: none of its three cells is missing. */
  datatype Loaded = Loaded(complain: int, enrolmentYear: int, regular: int)

  datatype LoadedFrame = LoadedFrame(columns: seq<string>, rows: seq<Loaded>)

  /** `pd.DataFrame()`, what loading yields on failure. */
  const EMPTY_FRAME := LoadedFrame([], [])

  /** The row survives `dropna(subset=['Complain', 'Dt_Customer', 'MntRegularProds'])`. */
  predicate Retained(c: Customer)
  {
    c.complain.Some? && c.dtCustomer.Some? && c.regular.Some?
  }

  /** The projection onto the three loaded columns. */
  function Project(rows: seq<Customer>): (r: seq<Loaded>)
    requires forall i :: 0 <= i < |rows| ==> Retained(rows[i]) && rows[i].enrolmentYear.Some?
    ensures |r| == |rows|
  {
    seq(|rows|, i requires 0 <= i < |rows| && Retained(rows[i]) && rows[i].enrolmentYear.Some? =>
      Loaded(rows[i].complain.value, rows[i].enrolmentYear.value, rows[i].regular.value))
  }

  predicate HasRequired(columns: set<string>)
  {
    forall i :: 0 <= i < |REQUIRED| ==> REQUIRED[i] in columns
  }

  /** What `load_data` returns for a file with these columns and rows. */
  function Load(columns: set<string>, rows: seq<Customer>): (r: LoadedFrame)
    ensures r == EMPTY_FRAME <==> !HasRequired(columns)
    ensures r != EMPTY_FRAME ==> r.columns == LOADED_COLUMNS
  {
    if !HasRequired(columns) then EMPTY_FRAME
    else
      var derived := WithEnrolmentYear(WithRegularTotal(columns, rows).1);
      var kept := Filter(derived, Retained);
      FilterMembership(derived, Retained);
      LoadedFrame(LOADED_COLUMNS, Project(kept))
  }

  /** `load_data` on the file's contents when it could be read. */
  method LoadData(columns: set<string>, rows: seq<Customer>) returns (loaded: LoadedFrame)
    ensures loaded == Load(columns, rows)
  {
    var df := new Table(columns, rows);
    if !HasRequired(df.columns) {
      return EMPTY_FRAME;
    }
    df.AddRegularTotal();
    df.AddEnrolmentYear();
    var kept := Filter(df.rows, Retained);
    FilterMembership(df.rows, Retained);
    loaded := LoadedFrame(LOADED_COLUMNS, Project(kept));
  }

  /** The loaded row that a source row becomes: its complaint flag, the year
      of its customer date, and its regular spend, read from the existing
      column or else summed from the six spend columns. */
  predicate Becomes(columns: set<string>, c: Customer, l: Loaded)
  {
    && c.complain == Some(l.complain)
    && c.dtCustomer.Some? && c.dtCustomer.value.year == l.enrolmentYear
    && (if REGULAR in columns then c.regular == Some(l.regular) else l.regular == RegularTotal(c))
  }

  /** A raw row after both derivation steps of `load_data`. */
  function Derive(columns: set<string>): Customer -> Customer
  {
    (c: Customer) => AddYear(if REGULAR in columns then c else AddTotal(c))
  }

  /** The source rows that survive cleaning: a complaint flag, a customer
      date, and a value in `MntRegularProds` when that column already exists
      (a derived total is never missing). */
  function Kept(columns: set<string>): Customer -> bool
  {
    (c: Customer) => c.complain.Some? && c.dtCustomer.Some? && (REGULAR in columns ==> c.regular.Some?)
  }

  /** Loaded row k is what kept source row k becomes. */
  lemma LoadedPositions(columns: set<string>, rows: seq<Customer>)
    requires HasRequired(columns)
    ensures |Load(columns, rows).rows| == |Filter(rows, Kept(columns))|
    ensures forall k :: 0 <= k < |Load(columns, rows).rows| ==>
      Becomes(columns, Filter(rows, Kept(columns))[k], Load(columns, rows).rows[k])
  {
    var derived := WithEnrolmentYear(WithRegularTotal(columns, rows).1);
    assert derived == Map(rows, Derive(columns));
    FilterMap(rows, Derive(columns), Retained, Kept(columns));
    var source := Filter(rows, Kept(columns));
    var kept := Filter(derived, Retained);
    assert kept == Map(source, Derive(columns));
    FilterMembership(derived, Retained);
    assert Load(columns, rows).rows == Project(kept);
  }

  /** The loaded rows are, position by position, what the kept source rows
      become: there are exactly as many loaded rows as kept rows, in the
      source order, each kept row counted as often as it occurs. A row is
      dropped only for a missing complaint flag, a missing date, or a missing
      value in an existing `MntRegularProds` column. */
  lemma LoadedRowsSpec(columns: set<string>, rows: seq<Customer>)
    requires HasRequired(columns)
    ensures |Load(columns, rows).rows| == |Filter(rows, Kept(columns))|
    ensures forall k :: 0 <= k < |Load(columns, rows).rows| ==>
      Becomes(columns, Filter(rows, Kept(columns))[k], Load(columns, rows).rows[k])
    ensures IsSubseq(Filter(rows, Kept(columns)), rows)
    ensures forall c :: multiset(Filter(rows, Kept(columns)))[c] == if Kept(columns)(c) then multiset(rows)[c] else 0
    ensures |Load(columns, rows).rows| <= |rows|
    ensures forall l :: l in Load(columns, rows).rows <==> exists c :: c in rows && Becomes(columns, c, l)
  {
    LoadedPositions(columns, rows);
    FilterIsSubseq(rows, Kept(columns));
    FilterMultiset(rows, Kept(columns));
    FilterMembership(rows, Kept(columns));
    BecomesMembership(columns, rows, Filter(rows, Kept(columns)), Load(columns, rows).rows);
  }

  /** Loaded rows that correspond position by position to the kept rows are
      exactly the rows some source row becomes. */
  lemma BecomesMembership(columns: set<string>, rows: seq<Customer>, source: seq<Customer>, loaded: seq<Loaded>)
    requires |loaded| == |source|
    requires forall k :: 0 <= k < |loaded| ==> Becomes(columns, source[k], loaded[k])
    requires forall c :: c in source <==> c in rows && Kept(columns)(c)
    ensures forall l :: l in loaded <==> exists c :: c in rows && Becomes(columns, c, l)
  {
    forall l ensures l in loaded <==> exists c :: c in rows && Becomes(columns, c, l) {
      if l in loaded {
        var k :| 0 <= k < |loaded| && loaded[k] == l;
        assert source[k] in rows;
      }
      if c :| c in rows && Becomes(columns, c, l) {
        assert c in source;
        var k :| 0 <= k < |source| && source[k] == c;
        assert Becomes(columns, c, loaded[k]);
      }
    }
  }

  /** The enrolment-year slider's `between(lo, hi)` mask. */
  function YearWithin(lo: int, hi: int): Loaded -> bool
  {
    (l: Loaded) => lo <= l.enrolmentYear <= hi
  }

  /** The mask `df['Complain'] == v`. */
  function ComplainIs(v: int): Loaded -> bool
  {
    (l: Loaded) => l.complain == v
  }

  function YearFilter(rows: seq<Loaded>, lo: int, hi: int): seq<Loaded>
  {
    Filter(rows, YearWithin(lo, hi))
  }

  /** The complaint dropdown's selection; an entry other than the two named
      ones leaves the rows as they are. */
  function ComplaintFilter(rows: seq<Loaded>, choice: string): seq<Loaded>
  {
    if choice == COMPLAINED then Filter(rows, ComplainIs(1))
    else if choice == NOT_COMPLAINED then Filter(rows, ComplainIs(0))
    else rows
  }

  /** The year selection keeps exactly the rows with lo <= year <= hi, in order. */
  lemma YearFilterSpec(rows: seq<Loaded>, lo: int, hi: int)
    ensures forall i :: 0 <= i < |YearFilter(rows, lo, hi)| ==> lo <= YearFilter(rows, lo, hi)[i].enrolmentYear <= hi
    ensures forall l :: multiset(YearFilter(rows, lo, hi))[l] == if lo <= l.enrolmentYear <= hi then multiset(rows)[l] else 0
    ensures IsSubseq(YearFilter(rows, lo, hi), rows)
  {
    FilterMultiset(rows, YearWithin(lo, hi));
    FilterIsSubseq(rows, YearWithin(lo, hi));
  }

  /** 'Reclamaram' keeps exactly the complainers, 'Não Reclamaram' exactly the
      others with flag 0, and 'Todos' changes nothing; order is kept. */
  lemma ComplaintFilterSpec(rows: seq<Loaded>, choice: string)
    ensures choice == COMPLAINED ==> forall l :: multiset(ComplaintFilter(rows, choice))[l] == if l.complain == 1 then multiset(rows)[l] else 0
    ensures choice == NOT_COMPLAINED ==> forall l :: multiset(ComplaintFilter(rows, choice))[l] == if l.complain == 0 then multiset(rows)[l] else 0
    ensures choice == ALL ==> ComplaintFilter(rows, choice) == rows
    ensures IsSubseq(ComplaintFilter(rows, choice), rows)
  {
    if choice == COMPLAINED {
      FilterMultiset(rows, ComplainIs(1));
      FilterIsSubseq(rows, ComplainIs(1));
    } else if choice == NOT_COMPLAINED {
      FilterMultiset(rows, ComplainIs(0));
      FilterIsSubseq(rows, ComplainIs(0));
    } else {
      FilterAllPass(rows, _ => true);
      FilterIsSubseq(rows, _ => true);
    }
  }

  /** The two selections of `main` commute. */
  lemma CampaignFiltersCommute(rows: seq<Loaded>, lo: int, hi: int, choice: string)
    ensures ComplaintFilter(YearFilter(rows, lo, hi), choice) == YearFilter(ComplaintFilter(rows, choice), lo, hi)
  {
    FilterCommutes(rows, YearWithin(lo, hi), ComplainIs(1));
    FilterCommutes(rows, YearWithin(lo, hi), ComplainIs(0));
  }

  function Spend(rows: seq<Loaded>): (xs: seq<int>)
    ensures |xs| == |rows|
  {
    seq(|rows|, i requires 0 <= i < |rows| => rows[i].regular)
  }

  function Complaints(rows: seq<Loaded>): (xs: seq<int>)
    ensures |xs| == |rows|
  {
    seq(|rows|, i requires 0 <= i < |rows| => rows[i].complain)
  }

  datatype Metrics = Metrics(
    meanComplained: Option<real>,
    meanNotComplained: Option<real>,
    statistic: Option<real>,
    p: PValue,
    totalCustomers: nat,
    complaintRate: Option<real>)

  /** `calculate_metrics`. */
  function CalculateMetrics(rows: seq<Loaded>, test: TwoSampleTest): (m: Metrics)
    ensures m.totalCustomers == |rows|
    ensures m.meanComplained.None? <==> forall l :: l in rows ==> l.complain != 1
    ensures m.meanNotComplained.None? <==> forall l :: l in rows ==> l.complain != 0
  {
    var complained := Filter(rows, ComplainIs(1));
    var notComplained := Filter(rows, ComplainIs(0));
    FilterMembership(rows, ComplainIs(1));
    FilterMembership(rows, ComplainIs(0));
    var result := test(Spend(complained), Spend(notComplained));
    Metrics(Mean(Spend(complained)), Mean(Spend(notComplained)), result.statistic, result.p, |rows|, Mean(Complaints(rows)))
  }

  /** With 0/1 complaint flags, the flags sum to the number of complainers. */
  lemma {:induction false} ComplaintsCountComplainers(rows: seq<Loaded>)
    requires forall i :: 0 <= i < |rows| ==> rows[i].complain == 0 || rows[i].complain == 1
    ensures Sum(Complaints(rows)) == |Filter(rows, ComplainIs(1))|
  {
    if rows != [] {
      ComplaintsCountComplainers(rows[1..]);
      assert Complaints(rows)[1..] == Complaints(rows[1..]);
    }
  }

  /** The complaint rate is the share of complainers among the filtered
      customers, and undefined for no customers. */
  lemma ComplaintRateSpec(rows: seq<Loaded>, test: TwoSampleTest)
    requires forall i :: 0 <= i < |rows| ==> rows[i].complain == 0 || rows[i].complain == 1
    ensures CalculateMetrics(rows, test).complaintRate ==
      if rows == [] then None else Some(|Filter(rows, ComplainIs(1))| as real / |rows| as real)
    ensures rows != [] ==> 0.0 <= CalculateMetrics(rows, test).complaintRate.value <= 1.0
  {
    ComplaintsCountComplainers(rows);
    if rows != [] {
      MeanWithinBounds(Complaints(rows), 0, 1);
    }
  }

  /** The two cohorts share no row; with 0/1 flags they split the customers. */
  lemma ComplaintCohortsSpec(rows: seq<Loaded>)
    ensures forall l :: l in Filter(rows, ComplainIs(1)) ==> l !in Filter(rows, ComplainIs(0))
    ensures |Filter(rows, ComplainIs(1))| + |Filter(rows, ComplainIs(0))| <= |rows|
    ensures (forall i :: 0 <= i < |rows| ==> rows[i].complain == 0 || rows[i].complain == 1) ==>
      |Filter(rows, ComplainIs(1))| + |Filter(rows, ComplainIs(0))| == |rows|
  {
    FilterMembership(rows, ComplainIs(1));
    FilterMembership(rows, ComplainIs(0));
    FilterSplitLength(rows, ComplainIs(1), ComplainIs(0));
  }

  /** After the 'Reclamaram' selection no customer is in the non-complainer
      cohort, whose mean is then undefined. */
  lemma ComplainedLeavesNoNonComplainers(rows: seq<Loaded>, test: TwoSampleTest)
    ensures Filter(ComplaintFilter(rows, COMPLAINED), ComplainIs(0)) == []
    ensures CalculateMetrics(ComplaintFilter(rows, COMPLAINED), test).meanNotComplained == None
  {
    var kept := ComplaintFilter(rows, COMPLAINED);
    FilterNonePass(kept, ComplainIs(0));
  }

  const SIGNIFICANT_ACTIONS: seq<string> := [
    "Priorizar análise das causas das reclamações",
    "Implementar programa de recuperação de clientes",
    "Desenvolver campanhas especiais para reclamantes"]

  const ROUTINE_ACTIONS: seq<string> := [
    "Reforçar programas de fidelidade",
    "Melhorar processos de atendimento",
    "Monitorar indicadores continuamente"]

  /** The insight text, without its number formatting: the two means, their
      difference, the p-value, the significance line, then the appended
      list of recommendations. */
  datatype Insights = Insights(
    meanComplained: Option<real>,
    meanNotComplained: Option<real>,
    difference: Option<real>,
    p: PValue,
    significantFlag: bool,
    recommendations: seq<string>)

  /** `generate_insights`: the flag line and the recommendation list come from
      the same `p < 0.05` test, and exactly one of the two fixed lists is
      appended. */
  method GenerateInsights(m: Metrics) returns (insights: Insights)
    ensures insights.meanComplained == m.meanComplained && insights.meanNotComplained == m.meanNotComplained
    ensures insights.p == m.p
    ensures insights.difference == AbsDifference(m.meanComplained, m.meanNotComplained)
    ensures insights.difference.Some? ==> insights.difference.value >= 0.0
    ensures insights.significantFlag <==> m.p.Some? && m.p.value < 0.05
    ensures insights.recommendations == SIGNIFICANT_ACTIONS || insights.recommendations == ROUTINE_ACTIONS
    ensures insights.recommendations == SIGNIFICANT_ACTIONS <==> insights.significantFlag
  {
    var flag := Significant(m.p);
    var appended: seq<string> := [];
    if Significant(m.p) {
      appended := appended + SIGNIFICANT_ACTIONS;
    } else {
      appended := appended + ROUTINE_ACTIONS;
    }
    assert SIGNIFICANT_ACTIONS[0] != ROUTINE_ACTIONS[0];
    insights := Insights(m.meanComplained, m.meanNotComplained,
      AbsDifference(m.meanComplained, m.meanNotComplained), m.p, flag, appended);
  }

  datatype CampaignView = CampaignView(filtered: seq<Loaded>, metrics: Metrics, insights: Insights)

  /** `main` on the loaded frame; the slider's `lo`..`hi` and the dropdown's
      `choice` are the widget results. Nothing is shown for an empty frame. */
  method Dashboard(data: LoadedFrame, lo: int, hi: int, choice: string, test: TwoSampleTest)
    returns (view: Option<CampaignView>)
    ensures view.None? <==> data.rows == [] || data.columns == []
    ensures view.Some? ==> view.value.filtered == ComplaintFilter(YearFilter(data.rows, lo, hi), choice)
    ensures view.Some? ==> view.value.metrics == CalculateMetrics(view.value.filtered, test)
    ensures view.Some? ==> view.value.metrics.totalCustomers == |view.value.filtered|
    ensures view.Some? && choice == COMPLAINED ==> view.value.metrics.meanNotComplained == None
    ensures view.Some? ==> (view.value.insights.significantFlag <==> Significant(view.value.metrics.p))
    ensures view.Some? ==> (view.value.insights.recommendations ==
      if Significant(view.value.metrics.p) then SIGNIFICANT_ACTIONS else ROUTINE_ACTIONS)
    ensures view.Some? ==> (view.value.insights.difference ==
      AbsDifference(view.value.metrics.meanComplained, view.value.metrics.meanNotComplained))
    ensures view.Some? ==> (view.value.insights.meanComplained == view.value.metrics.meanComplained
      && view.value.insights.meanNotComplained == view.value.metrics.meanNotComplained
      && view.value.insights.p == view.value.metrics.p)
  {
    if data.rows == [] || data.columns == [] {
      return None;
    }
    var filtered := YearFilter(data.rows, lo, hi);
    filtered := ComplaintFilter(filtered, choice);
    var metrics := CalculateMetrics(filtered, test);
    if choice == COMPLAINED {
      CampaignFiltersCommute(data.rows, lo, hi, choice);
      ComplainedLeavesNoNonComplainers(YearFilter(data.rows, lo, hi), test);
    }
    var insights := GenerateInsights(metrics);
    view := Some(CampaignView(filtered, metrics, insights));
  }
}
