/** The meat-spend-by-marital-status dashboard: column check and cleaning,
    the marital-status dropdown, the marital and income filters, the
    Single/Married cohorts and the choice of the report's conclusion. */
module StatusDashboard {
  import opened Wrappers
  import opened Rows
  import opened Stats
  import opened Sorting

  const MARITAL_STATUS := "Marital_Status"
  const MEAT := "MntMeatProducts"
  const INCOME := "Income"

  /** The columns the analysis needs, in the order they are checked. */
  const REQUIRED: seq<string> := [MARITAL_STATUS, MEAT, INCOME]

  /** The dropdown entry that selects every marital status. */
  const ALL := "Todos"
  const SINGLE := "Single"
  const MARRIED := "Married"

  /** One customer; a missing cell is `None`. */
  datatype Customer = Customer(maritalStatus: Option<string>, meat: Option<int>, income: Option<real>)

  /** A loaded frame: its column names and its rows. */
  datatype Frame = Frame(columns: set<string>, rows: seq<Customer>)

  datatype StatusError =
    | NoData                        // the loaded frame is empty: the page stops
    | KeyError(column: string)      // `main` reads a column the frame lacks
    | NoIncomeRange                 // no income to bound the slider: `int(nan)` fails
    | MissingColumn(column: string) // the analysis' own column check fails

  /** pandas `DataFrame.empty`: no rows or no columns. */
  predicate Empty(data: Frame)
  {
    |data.rows| == 0 || data.columns == {}
  }

  /** The position of the first name of `required` that is not a column. */
  function FirstMissing(required: seq<string>, columns: set<string>): (r: Option<nat>)
    ensures r.None? <==> forall i :: 0 <= i < |required| ==> required[i] in columns
    ensures r.Some? ==> r.value < |required| && required[r.value] !in columns
    ensures r.Some? ==> forall j :: 0 <= j < r.value ==> required[j] in columns
  {
    if required == [] then None
    else if required[0] !in columns then Some(0)
    else match FirstMissing(required[1..], columns)
      case None => None
      case Some(i) => Some(i + 1)
  }

  /** The column check of the analysis: it fails, naming the first missing
      required column in list order, unless all three are present. */
  function CheckColumns(columns: set<string>): (r: Result<(), StatusError>)
    ensures r.Ok? <==> MARITAL_STATUS in columns && MEAT in columns && INCOME in columns
    ensures r.Err? ==> r.error == MissingColumn(
      if MARITAL_STATUS !in columns then MARITAL_STATUS
      else if MEAT !in columns then MEAT
      else INCOME)
  {
    assert REQUIRED == [MARITAL_STATUS, MEAT, INCOME];
    assert REQUIRED[0] == MARITAL_STATUS && REQUIRED[1] == MEAT && REQUIRED[2] == INCOME;
    match FirstMissing(REQUIRED, columns)
    case None => Ok(())
    case Some(i) => Err(MissingColumn(REQUIRED[i]))
  }

  /** No required cell of the row is missing. */
  predicate Complete(c: Customer)
  {
    c.maritalStatus.Some? && c.meat.Some? && c.income.Some?
  }

  /** `dropna(subset=REQUIRED)`. */
  function DropIncomplete(rows: seq<Customer>): seq<Customer>
  {
    Filter(rows, Complete)
  }

  /** Cleaning keeps exactly the complete rows, each as often as it occurs,
      in their original order. */
  lemma DropIncompleteSpec(rows: seq<Customer>)
    ensures forall i :: 0 <= i < |DropIncomplete(rows)| ==> Complete(DropIncomplete(rows)[i])
    ensures forall c :: multiset(DropIncomplete(rows))[c] == if Complete(c) then multiset(rows)[c] else 0
    ensures IsSubseq(DropIncomplete(rows), rows)
  {
    FilterMultiset(rows, Complete);
    FilterIsSubseq(rows, Complete);
  }

  /** The mask `df['Marital_Status'] == s`; a missing status never matches. */
  function StatusIs(s: string): Customer -> bool
  {
    (c: Customer) => c.maritalStatus == Some(s)
  }

  /** The mask `(df['Income'] >= lo) & (df['Income'] <= hi)`; a missing
      income never matches. */
  function IncomeWithin(lo: int, hi: int): Customer -> bool
  {
    (c: Customer) => c.income.Some? && lo as real <= c.income.value <= hi as real
  }

  /** The non-missing marital statuses, in row order. */
  function Statuses(rows: seq<Customer>): seq<string>
  {
    if rows == [] then []
    else (if rows[0].maritalStatus.Some? then [rows[0].maritalStatus.value] else []) + Statuses(rows[1..])
  }

  lemma {:induction false} StatusesSpec(rows: seq<Customer>)
    ensures forall s :: s in Statuses(rows) <==> exists c :: c in rows && c.maritalStatus == Some(s)
  {
    if rows != [] {
      StatusesSpec(rows[1..]);
      assert rows == [rows[0]] + rows[1..];
    }
  }

  /** The dropdown: `['Todos'] + sorted(statuses.dropna().unique())`. */
  function DropdownOptions(rows: seq<Customer>): seq<string>
  {
    [ALL] + SortedUnique(Statuses(rows))
  }

  /** The dropdown starts with 'Todos'; the rest is strictly ascending,
      without repeats, and lists exactly the statuses present. */
  lemma DropdownOptionsSpec(rows: seq<Customer>)
    ensures |DropdownOptions(rows)| >= 1 && DropdownOptions(rows)[0] == ALL
    ensures StrictlyAscending(DropdownOptions(rows)[1..])
    ensures forall i, j :: 1 <= i < j < |DropdownOptions(rows)| ==> DropdownOptions(rows)[i] != DropdownOptions(rows)[j]
    ensures forall s :: s in DropdownOptions(rows)[1..] <==> exists c :: c in rows && c.maritalStatus == Some(s)
  {
    var options := DropdownOptions(rows);
    SortedUniqueSpec(Statuses(rows));
    StatusesSpec(rows);
    assert options[1..] == SortedUnique(Statuses(rows));
    AscendingHasNoDuplicates(options[1..]);
    forall i, j | 1 <= i < j < |options| ensures options[i] != options[j] {
      assert options[i] == options[1..][i - 1] && options[j] == options[1..][j - 1];
    }
  }

  /** The marital-status selection of `main`. */
  function MaritalFilter(rows: seq<Customer>, choice: string): seq<Customer>
  {
    if choice == ALL then rows else Filter(rows, StatusIs(choice))
  }

  /** 'Todos' keeps the rows as they are; any other choice keeps exactly the
      rows with that status, in order. */
  lemma MaritalFilterSpec(rows: seq<Customer>, choice: string)
    ensures choice == ALL ==> MaritalFilter(rows, choice) == rows
    ensures choice != ALL ==> forall i :: 0 <= i < |MaritalFilter(rows, choice)| ==>
      MaritalFilter(rows, choice)[i].maritalStatus == Some(choice)
    ensures choice != ALL ==> forall c :: multiset(MaritalFilter(rows, choice))[c] ==
                                         if c.maritalStatus == Some(choice) then multiset(rows)[c] else 0
    ensures IsSubseq(MaritalFilter(rows, choice), rows)
  {
    if choice == ALL {
      FilterAllPass(rows, _ => true);
      FilterIsSubseq(rows, _ => true);
    } else {
      FilterMultiset(rows, StatusIs(choice));
      FilterIsSubseq(rows, StatusIs(choice));
    }
  }

  /** The income slider's selection of `main`. */
  function IncomeFilter(rows: seq<Customer>, lo: int, hi: int): seq<Customer>
  {
    Filter(rows, IncomeWithin(lo, hi))
  }

  /** The income selection keeps exactly the rows with lo <= Income <= hi,
      both bounds included, in order. */
  lemma IncomeFilterSpec(rows: seq<Customer>, lo: int, hi: int)
    ensures forall i :: 0 <= i < |IncomeFilter(rows, lo, hi)| ==>
      var c := IncomeFilter(rows, lo, hi)[i]; c.income.Some? && lo as real <= c.income.value <= hi as real
    ensures forall c :: multiset(IncomeFilter(rows, lo, hi))[c] ==
                         if c.income.Some? && lo as real <= c.income.value <= hi as real then multiset(rows)[c] else 0
    ensures IsSubseq(IncomeFilter(rows, lo, hi), rows)
  {
    FilterMultiset(rows, IncomeWithin(lo, hi));
    FilterIsSubseq(rows, IncomeWithin(lo, hi));
  }

  /** The marital and income selections commute. */
  lemma FiltersCommute(rows: seq<Customer>, choice: string, lo: int, hi: int)
    ensures IncomeFilter(MaritalFilter(rows, choice), lo, hi) == MaritalFilter(IncomeFilter(rows, lo, hi), choice)
  {
    if choice != ALL {
      FilterCommutes(rows, StatusIs(choice), IncomeWithin(lo, hi));
    }
  }

  /** The meat-spend column of complete rows. */
  function MeatValues(rows: seq<Customer>): (xs: seq<int>)
    requires forall i :: 0 <= i < |rows| ==> rows[i].meat.Some?
    ensures |xs| == |rows|
  {
    seq(|rows|, i requires 0 <= i < |rows| => rows[i].meat.value)
  }

  /** The rows of one marital status among the cleaned rows. */
  function Cohort(cleaned: seq<Customer>, status: string): seq<Customer>
  {
    Filter(cleaned, StatusIs(status))
  }

  /** The Single and Married cohorts are order-preserving selections of the
      cleaned rows that share no row and together are no larger than it. */
  lemma CohortsDisjoint(rows: seq<Customer>)
    ensures IsSubseq(Cohort(DropIncomplete(rows), SINGLE), DropIncomplete(rows))
    ensures IsSubseq(Cohort(DropIncomplete(rows), MARRIED), DropIncomplete(rows))
    ensures forall c :: c in Cohort(DropIncomplete(rows), SINGLE) ==> c !in Cohort(DropIncomplete(rows), MARRIED)
    ensures |Cohort(DropIncomplete(rows), SINGLE)| + |Cohort(DropIncomplete(rows), MARRIED)| <= |DropIncomplete(rows)|
  {
    var cleaned := DropIncomplete(rows);
    FilterIsSubseq(cleaned, StatusIs(SINGLE));
    FilterIsSubseq(cleaned, StatusIs(MARRIED));
    FilterMembership(cleaned, StatusIs(SINGLE));
    FilterMembership(cleaned, StatusIs(MARRIED));
    FilterSplitLength(cleaned, StatusIs(SINGLE), StatusIs(MARRIED));
  }

  /** What the analysis returns besides its charts. */
  datatype Analysis = Analysis(
    cleaned: seq<Customer>,
    meanSingle: Option<real>,
    meanMarried: Option<real>,
    statistic: Option<real>,
    p: PValue)

  /** `analisar_gastos_carne_por_estado_civil` without its charts. */
  function Analyze(data: Frame, test: TwoSampleTest): (r: Result<Analysis, StatusError>)
    ensures r.Ok? <==> forall i :: 0 <= i < |REQUIRED| ==> REQUIRED[i] in data.columns
    ensures r.Ok? ==> forall i :: 0 <= i < |r.value.cleaned| ==> Complete(r.value.cleaned[i])
    ensures r.Ok? ==> (r.value.meanSingle.None? <==> forall c :: c in data.rows && Complete(c) ==> c.maritalStatus != Some(SINGLE))
    ensures r.Ok? ==> (r.value.meanMarried.None? <==> forall c :: c in data.rows && Complete(c) ==> c.maritalStatus != Some(MARRIED))
  {
    match CheckColumns(data.columns)
    case Err(e) => Err(e)
    case Ok(_) =>
      var cleaned := DropIncomplete(data.rows);
      FilterMembership(data.rows, Complete);
      var single := Cohort(cleaned, SINGLE);
      var married := Cohort(cleaned, MARRIED);
      FilterMembership(cleaned, StatusIs(SINGLE));
      FilterMembership(cleaned, StatusIs(MARRIED));
      var singleMeat := MeatValues(single);
      var marriedMeat := MeatValues(married);
      var result := test(singleMeat, marriedMeat);
      Ok(Analysis(cleaned, Mean(singleMeat), Mean(marriedMeat), result.statistic, result.p))
  }

  const SIGNIFICANT_TEXT := "Existe uma diferença estatisticamente significativa entre os gastos em carne de solteiros e casados. Sugere-se focar campanhas de marketing direcionadas para o grupo que apresenta maior gasto, explorando estratégias que evidenciem os benefícios dos produtos de carne."
  const NOT_SIGNIFICANT_TEXT := "Não foi encontrada uma diferença estatisticamente significativa entre os grupos. Recomenda-se revisar as estratégias de marketing e realizar pesquisas adicionais para entender melhor as preferências dos clientes."

  /** The two possible conclusions of the report, each with its fixed text. */
  datatype Conclusion = SignificantDifference | NoSignificantDifference
  {
    function Text(): string
    {
      match this
      case SignificantDifference => SIGNIFICANT_TEXT
      case NoSignificantDifference => NOT_SIGNIFICANT_TEXT
    }
  }

  /** The conclusion is the 'significant' text exactly when p < 0.05 and the
      'not significant' text otherwise; no third text exists. */
  function ConcludeFrom(p: PValue): (c: Conclusion)
    ensures c.Text() == SIGNIFICANT_TEXT <==> p.Some? && p.value < 0.05
    ensures c.Text() == NOT_SIGNIFICANT_TEXT <==> !(p.Some? && p.value < 0.05)
  {
    if Significant(p) then SignificantDifference else NoSignificantDifference
  }

  /** What the page shows, apart from charts and formatting. */
  datatype StatusReport = StatusReport(options: seq<string>, analysis: Analysis, conclusion: Conclusion)

  /** `main`: the dropdown's `choice` and the income slider's `lo`..`hi` are
      the widget results; the data is the loaded frame. */
  function Dashboard(data: Frame, choice: string, lo: int, hi: int, test: TwoSampleTest): (r: Result<StatusReport, StatusError>)
    ensures r == Err(NoData) <==> Empty(data)
    ensures r == Err(KeyError(MARITAL_STATUS)) <==> !Empty(data) && MARITAL_STATUS !in data.columns
    ensures r == Err(KeyError(INCOME)) <==> !Empty(data) && MARITAL_STATUS in data.columns && INCOME !in data.columns
    ensures r == Err(NoIncomeRange) <==>
      !Empty(data) && MARITAL_STATUS in data.columns && INCOME in data.columns &&
      forall c :: c in MaritalFilter(data.rows, choice) ==> c.income.None?
    ensures r == Err(MissingColumn(MEAT)) <==>
      !Empty(data) && MARITAL_STATUS in data.columns && INCOME in data.columns &&
      (exists c :: c in MaritalFilter(data.rows, choice) && c.income.Some?) && MEAT !in data.columns
    ensures r.Ok? <==>
      !Empty(data) && MARITAL_STATUS in data.columns && INCOME in data.columns && MEAT in data.columns &&
      exists c :: c in MaritalFilter(data.rows, choice) && c.income.Some?
    ensures r.Err? && r.error.MissingColumn? ==> r.error.column == MEAT
    ensures r.Ok? ==> r.value.options == DropdownOptions(data.rows)
    ensures r.Ok? ==> r.value.analysis.cleaned == DropIncomplete(IncomeFilter(MaritalFilter(data.rows, choice), lo, hi))
    ensures r.Ok? ==> r.value.conclusion.Text() == (if Significant(r.value.analysis.p) then SIGNIFICANT_TEXT else NOT_SIGNIFICANT_TEXT)
  {
    if Empty(data) then Err(NoData)
    else if MARITAL_STATUS !in data.columns then Err(KeyError(MARITAL_STATUS))
    else
      var options := DropdownOptions(data.rows);
      var byStatus := MaritalFilter(data.rows, choice);
      if INCOME !in data.columns then Err(KeyError(INCOME))
      else if forall i :: 0 <= i < |byStatus| ==> byStatus[i].income.None? then Err(NoIncomeRange)
      else
        var byIncome := IncomeFilter(byStatus, lo, hi);
        match Analyze(Frame(data.columns, byIncome), test)
        case Err(e) => Err(e)
        case Ok(a) => Ok(StatusReport(options, a, ConcludeFrom(a.p)))
  }
}
