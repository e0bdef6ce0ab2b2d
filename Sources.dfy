/** The two remote sources, as answers given up front, and the addresses the
    collection asks them for. */
module Sources {
  import opened Wrappers
  import opened Numbers
  import opened Records

  /** The structured-API requests: a legislator's profile, and one month of
      their expenses; their text is `ApiPath`. */
  datatype ApiAddress = ProfileAt(id: nat) | ExpensesAt(id: nat, year: nat, month: nat)

  /** What the remote sources answer. `parties` and `roster` are the party
      listing (its `sigla` codes, in the order served) and the legislator
      listing; `profile` and `expenses` answer structured-API requests; `page`
      answers a page address with the parsed document. Any of them may fail. */
  datatype Remote = Remote(
    parties: Result<seq<string>>,
    roster: Result<seq<RosterEntry>>,
    profile: ApiAddress -> Result<Profile>,
    expenses: ApiAddress -> Result<seq<Expense>>,
    page: PageAddress -> Result<Document>)

  const SITE := "https://www.camara.leg.br/deputados/"

  /** The path of a structured-API request, relative to the API root (lines 213-215 and 238). */
  function ApiPath(a: ApiAddress): string {
    match a
    case ProfileAt(id) => "deputados/" + DecimalText(id)
    case ExpensesAt(id, year, month) =>
      "deputados/" + DecimalText(id) + "/despesas?ano=" + DecimalText(year)
        + "&mes=" + Pad2(month) + "&itens=100"
  }

  /** The address text of a page (lines 23, 75, 135, 176, 182 and 334). */
  function PageUrl(a: PageAddress): string {
    match a
    case ProfilePage(id) => SITE + DecimalText(id)
    case BudgetPage(id, year) => SITE + DecimalText(id) + "/_gastos?ano=" + DecimalText(year)
    case ResourcesPage(id, year) => SITE + DecimalText(id) + "/_recursos?ano=" + DecimalText(year)
    case ActivityPage(id, year) => SITE + DecimalText(id) + "/_atuacao?ano=" + DecimalText(year)
    case PlenaryPage(id, year) => SITE + DecimalText(id) + "/presenca-plenario/" + DecimalText(year)
    case CommitteePage(id, year) => SITE + DecimalText(id) + "/presenca-comissoes?ano=" + DecimalText(year)
  }
}
