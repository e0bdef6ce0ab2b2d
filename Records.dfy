/** The values the collection produces and the checkpoints hold. Amounts and
    percentages are hundredths (cents); counts scraped from pages stay text,
    as they are stored. */
module Records {
  import opened Wrappers

  /** A matched page element: its `textContent`, and its `href` when it has one. */
  datatype Node = Node(text: string, href: Option<string>)

  /** The CSS queries the page readers make; their text is `SelectorText`. */
  datatype Selector =
    | BudgetSummaryCells | BudgetMonthlyCells
    | StaffLink | SalaryLink | ResidenceSpan | HousingSpan | TravelSpan
    | QuantityNodes | AttendanceCells

  /** A parsed page seen through the queries made of it: `select(q)` is what
      `querySelectorAll` matches for the text of `q`, in document order. */
  datatype Document = Document(select: Selector -> seq<Node>)

  /** One member of the `deputados` listing. */
  datatype RosterEntry = RosterEntry(id: nat, partyCode: string)

  /** The fields of a legislator's `dados` (`getInfo`) that the aggregation reads;
      party, state, electoral name and e-mail come from `ultimoStatus`. */
  datatype Profile = Profile(
    id: nat, cpf: string, civilName: string,
    partyCode: string, stateCode: string, electoralName: string, email: string)

  /** One entry of a month's expense list: `tipoDespesa` and `valorLiquido` in cents. */
  datatype Expense = Expense(category: string, netValue: int)

  /** One element of `getGastosPeriodo`'s result: the "YYYY-MM" key and that
      month's entries. */
  datatype MonthlyBatch = MonthlyBatch(period: string, entries: seq<Expense>)

  /** A value with its percentage of the office budget, both in hundredths. */
  datatype Share = Share(value: nat, percent: nat)

  /** One row of the monthly office-budget table: `mes`, `valor`, `percentual`. */
  datatype MonthlyEntry = MonthlyEntry(month: string, value: nat, percent: nat)

  /** `getVerbas`: spent and available office budget and the monthly series. */
  datatype OfficeBudget = OfficeBudget(spent: Share, available: Share, monthly: seq<MonthlyEntry>)

  /** `getRecursos`: the staff text and its two digit groups, the salary, and
      the three benefit texts (official residence, housing allowance, travel). */
  datatype Resources = Resources(
    staffText: string, staffPlanned: string, staffActive: string, salary: nat,
    residence: string, housing: string, travel: string)

  /** An authored or reported count as shown on the activity page. */
  datatype Quantity = Quantity(count: string, link: Option<string>)

  /** The pages the collection fetches or links to; their text is `PageUrl`. */
  datatype PageAddress =
    | ProfilePage(id: nat)
    | BudgetPage(id: nat, year: nat) | ResourcesPage(id: nat, year: nat) | ActivityPage(id: nat, year: nat)
    | PlenaryPage(id: nat, year: nat) | CommitteePage(id: nat, year: nat)

  /** Attendance in plenary or in committees; a cell the page does not have is `None`. */
  datatype Attendance = Attendance(
    url: PageAddress, present: Option<string>, justified: Option<string>, unjustified: Option<string>)

  /** `getAtuacoes`: authored and reported counts and the two attendance blocks. */
  datatype Activity = Activity(authored: Quantity, reported: Quantity, plenary: Attendance, committee: Attendance)

  /** The composite record of one legislator that a party checkpoint holds:
      `info`, `gastos`, `recursos`, `atuacoes` and `verbas` for 2019 and 2020. */
  datatype Legislator = Legislator(
    info: Profile,
    expenses: seq<MonthlyBatch>,
    resources2019: Resources, resources2020: Resources,
    activity2019: Activity, activity2020: Activity,
    budget2019: OfficeBudget, budget2020: OfficeBudget)
}
