/** Field extraction from the three scraped pages: the office-budget page
    (`getVerbas`), the resources page (`getRecursos`) and the activity page
    (`getAtuacoes`). */
module Extract {
  import opened Wrappers
  import opened Numbers
  import opened Strings
  import opened Records
  import opened Sources

  const SENTINEL := "problema na solicitacao"

  /** The text of each query. */
  function SelectorText(q: Selector): string {
    match q
    case BudgetSummaryCells => "#percentualgastoverbagabinete td"
    case BudgetMonthlyCells => "#gastomensalverbagabinete td"
    case StaffLink => "[href*=\"/pessoal-gabinete\"]"
    case SalaryLink => "[href*=\"/remuneracao\"]"
    case ResidenceSpan => "span[class*=\"beneficio--icone-imovel-funcional\"]"
    case HousingSpan => "div[class*=\"beneficio__auxilio-moradia\"] span"
    case TravelSpan => "div[class*=\"beneficio__viagens\"] span"
    case QuantityNodes => "*[class=\"atuacao__quantidade\"]"
    case AttendanceCells => "dd[class=\"list-table__definition-description\"]"
  }

  /** `getSelectTextContentTrim`: the trimmed text of the first match, or the
      sentinel when nothing matches (the `catch` of the dereference of null). */
  function SelectTextContentTrim(doc: Document, query: Selector): (r: string)
    ensures |doc.select(query)| == 0 ==> r == SENTINEL
    ensures |doc.select(query)| > 0 ==> r == Trim(doc.select(query)[0].text)
  {
    var found := doc.select(query);
    if |found| == 0 then SENTINEL else Trim(found[0].text)
  }

  /** The sentinel holds no digit, so every amount read from it is zero. */
  lemma SentinelReadsAsZero()
    ensures NoDigits(SENTINEL)
    ensures ConvertNumber(SENTINEL) == 0 && ConverteNumberText(SENTINEL) == 0
  {
  }

  // ---- office budget (getVerbas) ----

  /** Row `k` of the monthly table: cells `3k`, `3k+1` and `3k+2`. */
  function Row(cells: seq<Node>, k: nat): MonthlyEntry
    requires 3 * k + 2 < |cells|
  {
    MonthlyEntry(cells[3 * k].text, ConvertNumber(cells[3 * k + 1].text), ConvertNumber(cells[3 * k + 2].text))
  }

  /** The monthly series read from the table cells in document order: one
      entry per group of three cells. A trailing group of one or two cells
      dereferences a missing cell, which fails. */
  function MonthlySeriesOf(cells: seq<Node>): (r: Result<seq<MonthlyEntry>>)
    ensures r.Ok? <==> |cells| % 3 == 0
    ensures r.Err? ==> r.error == MalformedPage
    ensures r.Ok? ==> 3 * |r.value| == |cells|
    ensures r.Ok? ==> forall k :: 0 <= k < |r.value| ==> r.value[k] == Row(cells, k)
  {
    if cells == [] then Ok([])
    else if |cells| < 3 then Err(MalformedPage)
    else
      var rest := MonthlySeriesOf(cells[3..]);
      assert |cells| % 3 == (|cells| - 3) % 3;
      if rest.Err? then rest
      else
        var r := [Row(cells, 0)] + rest.value;
        RowsShift(cells, rest.value, r);
        Ok(r)
  }

  /** Row `k` of the cells after the first three is row `k + 1` of all of them. */
  lemma RowsShift(cells: seq<Node>, rest: seq<MonthlyEntry>, r: seq<MonthlyEntry>)
    requires |cells| >= 3 && 3 * |rest| == |cells| - 3
    requires forall k :: 0 <= k < |rest| ==> rest[k] == Row(cells[3..], k)
    requires r == [Row(cells, 0)] + rest
    ensures forall k :: 0 <= k < |r| ==> r[k] == Row(cells, k)
  {
    forall k | 1 <= k < |r| ensures r[k] == Row(cells, k) {
      var j := k - 1;
      assert r[k] == rest[j];
      assert cells[3..][3 * j] == cells[3 * k];
      assert cells[3..][3 * j + 1] == cells[3 * k + 1];
      assert cells[3..][3 * j + 2] == cells[3 * k + 2];
    }
  }

  /** The loop of lines 40-48, pushing one entry per step of three cells. */
  method MonthlySeries(cells: seq<Node>) returns (r: Result<seq<MonthlyEntry>>)
    ensures r == MonthlySeriesOf(cells)
  {
    var mensal: seq<MonthlyEntry> := [];
    var i := 0;
    while i < |cells|
      invariant 0 <= i <= |cells| && i == 3 * |mensal|
      invariant forall k :: 0 <= k < |mensal| ==> mensal[k] == Row(cells, k)
    {
      if i + 2 >= |cells| {
        assert |cells| % 3 != 0;
        return Err(MalformedPage);
      }
      var entry := MonthlyEntry(cells[i].text, ConvertNumber(cells[i + 1].text), ConvertNumber(cells[i + 2].text));
      assert entry == Row(cells, |mensal|);
      mensal := mensal + [entry];
      i := i + 3;
    }
    var spec := MonthlySeriesOf(cells);
    assert spec.Ok?;
    assert mensal == spec.value;
    r := Ok(mensal);
  }

  /** `getVerbas` on a fetched page: the spent pair is summary cells 1 and 2,
      the available pair cells 4 and 5 (cells 0 and 3 are labels); fewer than
      six summary cells dereference a missing cell. */
  function BudgetOf(doc: Document): (r: Result<OfficeBudget>)
    ensures var s := doc.select(BudgetSummaryCells);
            r.Ok? <==> |s| >= 6 && MonthlySeriesOf(doc.select(BudgetMonthlyCells)).Ok?
    ensures var s := doc.select(BudgetSummaryCells);
            r.Ok? ==> && r.value.spent == Share(ConvertNumber(s[1].text), ConvertNumber(s[2].text))
                      && r.value.available == Share(ConvertNumber(s[4].text), ConvertNumber(s[5].text))
                      && Ok(r.value.monthly) == MonthlySeriesOf(doc.select(BudgetMonthlyCells))
  {
    var monthly :- MonthlySeriesOf(doc.select(BudgetMonthlyCells));
    var s := doc.select(BudgetSummaryCells);
    if |s| < 6 then Err(MalformedPage)
    else Ok(OfficeBudget(
      Share(ConvertNumber(s[1].text), ConvertNumber(s[2].text)),
      Share(ConvertNumber(s[4].text), ConvertNumber(s[5].text)),
      monthly))
  }

  method ParseBudget(doc: Document) returns (r: Result<OfficeBudget>)
    ensures r == BudgetOf(doc)
  {
    var monthly :- MonthlySeries(doc.select(BudgetMonthlyCells));
    var s := doc.select(BudgetSummaryCells);
    if |s| < 6 {
      return Err(MalformedPage);
    }
    r := Ok(OfficeBudget(
      Share(ConvertNumber(s[1].text), ConvertNumber(s[2].text)),
      Share(ConvertNumber(s[4].text), ConvertNumber(s[5].text)),
      monthly));
  }

  // ---- resources (getRecursos) ----

  /** `acessorAno` and `acessorAtivo`: the digits of the first and second
      comma-separated groups, the second falling back to the first when it is
      missing or holds no digit. */
  function StaffCounts(text: string): (r: (string, string))
    ensures AllDigits(r.0) && AllDigits(r.1)
    ensures r.0 == StripNonDigits(text[..IndexOf(text, ',')])
    ensures var i := IndexOf(text, ',');
            var second := if i < |text| then StripNonDigits(text[i + 1..][..IndexOf(text[i + 1..], ',')]) else "";
            r.1 == if second != "" then second else r.0
  {
    var groups := Split(text, ',');
    SplitTwoGroups(text, ',');
    var planned := StripNonDigits(groups[0]);
    var active := if |groups| > 1 then StripNonDigits(groups[1]) else "";
    (planned, if active != "" then active else planned)
  }

  lemma SplitTwoGroups(text: string, sep: char)
    ensures Split(text, sep)[0] == text[..IndexOf(text, sep)]
    ensures |Split(text, sep)| > 1 <==> IndexOf(text, sep) < |text|
    ensures var i := IndexOf(text, sep);
            i < |text| ==> Split(text, sep)[1] == text[i + 1..][..IndexOf(text[i + 1..], sep)]
  {
    SplitHead(text, sep);
    var i := IndexOf(text, sep);
    if i < |text| {
      SplitHead(text[i + 1..], sep);
    }
  }

  /** A text without a comma gives the same count twice. */
  lemma StaffWithoutComma(text: string)
    requires ',' !in text
    ensures StaffCounts(text) == (StripNonDigits(text), StripNonDigits(text))
  {
    assert text[..IndexOf(text, ',')] == text;
  }

  /** `getRecursos` on a fetched page. */
  function ResourcesOf(doc: Document): (r: Resources)
    ensures r.staffText == SelectTextContentTrim(doc, StaffLink)
    ensures (r.staffPlanned, r.staffActive) == StaffCounts(r.staffText)
    ensures r.salary == ConvertNumber(SelectTextContentTrim(doc, SalaryLink))
    ensures r.residence == SelectTextContentTrim(doc, ResidenceSpan)
    ensures r.housing == SelectTextContentTrim(doc, HousingSpan)
    ensures r.travel == SelectTextContentTrim(doc, TravelSpan)
  {
    var staff := SelectTextContentTrim(doc, StaffLink);
    var counts := StaffCounts(staff);
    Resources(
      staff, counts.0, counts.1,
      ConvertNumber(SelectTextContentTrim(doc, SalaryLink)),
      SelectTextContentTrim(doc, ResidenceSpan),
      SelectTextContentTrim(doc, HousingSpan),
      SelectTextContentTrim(doc, TravelSpan))
  }

  /** A page without the staff node yields empty staff counts. */
  lemma ResourcesWithoutStaff(doc: Document)
    requires |doc.select(StaffLink)| == 0
    ensures ResourcesOf(doc).staffPlanned == "" && ResourcesOf(doc).staffActive == ""
  {
    SentinelStaff();
  }

  /** A missing staff node yields empty counts. */
  lemma SentinelStaff()
    ensures StaffCounts(SENTINEL) == ("", "")
  {
    SentinelHasNoComma();
    StaffWithoutComma(SENTINEL);
    SentinelReadsAsZero();
    StripEmptyIffNoDigits(SENTINEL);
  }

  lemma SentinelHasNoComma()
    ensures ',' !in SENTINEL
    ensures IndexOf(SENTINEL, ',') == |SENTINEL|
  {
    assert forall i :: 0 <= i < |SENTINEL| ==> SENTINEL[i] != ',';
  }

  // ---- activity (getAtuacoes) ----

  /** Description cell `k`, trimmed, or `None` past the end of the list
      (array destructuring yields `undefined` there). */
  function Cell(cells: seq<Node>, k: nat): Option<string>
  {
    if k < |cells| then Some(Trim(cells[k].text)) else None
  }

  /** `getAtuacoes` on a fetched page: the authored and reported counts are the
      first two quantity nodes, which must exist; the six description cells
      are plenary present, justified, unjustified, then the same for
      committees. */
  function ActivityOf(doc: Document, id: nat, year: nat): (r: Result<Activity>)
    ensures r.Ok? <==> |doc.select(QuantityNodes)| >= 2
    ensures r.Ok? ==> var q := doc.select(QuantityNodes);
                      && r.value.authored == Quantity(Trim(q[0].text), q[0].href)
                      && r.value.reported == Quantity(Trim(q[1].text), q[1].href)
    ensures r.Ok? ==> var cells := doc.select(AttendanceCells);
                      && |cells| >= 6 ==>
                      && r.value.plenary.present == Some(Trim(cells[0].text))
                      && r.value.plenary.justified == Some(Trim(cells[1].text))
                      && r.value.plenary.unjustified == Some(Trim(cells[2].text))
                      && r.value.committee.present == Some(Trim(cells[3].text))
                      && r.value.committee.justified == Some(Trim(cells[4].text))
                      && r.value.committee.unjustified == Some(Trim(cells[5].text))
  {
    var q := doc.select(QuantityNodes);
    if |q| < 2 then Err(MalformedPage)
    else
      var cells := doc.select(AttendanceCells);
      Ok(Activity(
        Quantity(Trim(q[0].text), q[0].href),
        Quantity(Trim(q[1].text), q[1].href),
        Attendance(PlenaryPage(id, year), Cell(cells, 0), Cell(cells, 1), Cell(cells, 2)),
        Attendance(CommitteePage(id, year), Cell(cells, 3), Cell(cells, 4), Cell(cells, 5))))
  }
}
