/** The expense breakdown of lines 448-471: a `Map` from legislator id to a
    record holding the legislator's identity and one running total per
    expense category, filled entry by entry. */
module Breakdown {
  import opened Records
  import opened Sources
  import opened Aggregate

  /** The identity fields of a breakdown record. */
  datatype Header = Header(
    id: nat, partyCode: string, stateCode: string, cpf: string, name: string,
    electoralName: string, email: string, uri: PageAddress)

  function HeaderOf(info: Profile): Header {
    Header(info.id, info.partyCode, info.stateCode, info.cpf, info.civilName,
           info.electoralName, info.email, ProfilePage(info.id))
  }

  /** Category totals, in the order the categories were first seen (the
      insertion order of the record's properties). */
  type CategoryTotals = seq<(string, int)>

  /** A breakdown record. */
  datatype Account = Account(header: Header, totals: CategoryTotals)

  /** The `Map`: the ids in insertion order, and the record of each. */
  datatype Ledger = Ledger(order: seq<nat>, accounts: map<nat, Account>)

  function TotalsSum(t: CategoryTotals): int {
    if t == [] then 0 else t[0].1 + TotalsSum(t[1..])
  }

  /** The total recorded under category `x`. */
  function TotalOf(t: CategoryTotals, x: string): int {
    if t == [] then 0 else (if t[0].0 == x then t[0].1 else 0) + TotalOf(t[1..], x)
  }

  function Categories(t: CategoryTotals): set<string> {
    if t == [] then {} else {t[0].0} + Categories(t[1..])
  }

  predicate DistinctCategories(t: CategoryTotals) {
    t == [] || (t[0].0 !in Categories(t[1..]) && DistinctCategories(t[1..]))
  }

  /** `if (!gasto[c]) gasto[c] = 0; gasto[c] += v`: the total of `c` grows by
      `v`, every other total is unchanged, and a category not seen before is
      added, last. */
  function AddTo(t: CategoryTotals, c: string, v: int): (r: CategoryTotals)
    ensures forall x :: TotalOf(r, x) == TotalOf(t, x) + (if x == c then v else 0)
    ensures TotalsSum(r) == TotalsSum(t) + v
    ensures Categories(r) == Categories(t) + {c}
    ensures DistinctCategories(t) ==> DistinctCategories(r)
    ensures c !in Categories(t) ==> r == t + [(c, v)]
  {
    if t == [] then [(c, v)]
    else if t[0].0 == c then [(c, t[0].1 + v)] + t[1..]
    else [t[0]] + AddTo(t[1..], c, v)
  }

  /** The `Map` is well formed: each id is listed once, exactly the ids with a
      record are listed, and no record has a category twice. */
  ghost predicate ValidLedger(l: Ledger) {
    && (forall i, j :: 0 <= i < j < |l.order| ==> l.order[i] != l.order[j])
    && (forall id :: id in l.accounts <==> id in l.order)
    && (forall id :: id in l.accounts ==> DistinctCategories(l.accounts[id].totals))
    && (forall id :: id in l.accounts ==> l.accounts[id].header.id == id)
  }

  /** The body of the innermost `forEach`: one expense entry of legislator `info`. */
  function Post(l: Ledger, info: Profile, e: Expense): Ledger
  {
    if info.id in l.accounts then
      var acc := l.accounts[info.id];
      Ledger(l.order, l.accounts[info.id := Account(acc.header, AddTo(acc.totals, e.category, e.netValue))])
    else
      Ledger(l.order + [info.id], l.accounts[info.id := Account(HeaderOf(info), AddTo([], e.category, e.netValue))])
  }

  /** The entries of one month, in order. */
  function PostEntries(l: Ledger, info: Profile, es: seq<Expense>): Ledger
  {
    if es == [] then l else Post(PostEntries(l, info, es[..|es| - 1]), info, es[|es| - 1])
  }

  /** The months of one legislator's history, in order. */
  function PostBatches(l: Ledger, info: Profile, g: seq<MonthlyBatch>): Ledger
  {
    if g == [] then l else PostEntries(PostBatches(l, info, g[..|g| - 1]), info, g[|g| - 1].entries)
  }

  /** The histories of all records, in order. */
  function PostAll(l: Ledger, ds: seq<Legislator>): Ledger
  {
    if ds == [] then l else PostBatches(PostAll(l, ds[..|ds| - 1]), ds[|ds| - 1].info, ds[|ds| - 1].expenses)
  }

  /** The `Map` after all merged records. */
  function Breakdowns(ds: seq<Legislator>): Ledger {
    PostAll(Ledger([], map[]), ds)
  }

  /** The category totals of `id` summed, 0 without a record. */
  function SumOf(l: Ledger, id: nat): int {
    if id in l.accounts then TotalsSum(l.accounts[id].totals) else 0
  }

  /** The number of expense entries of a history. */
  function EntryCount(g: seq<MonthlyBatch>): nat {
    if g == [] then 0 else EntryCount(g[..|g| - 1]) + |g[|g| - 1].entries|
  }

  /** The sum of `valorLiquido` over all records of legislator `id`. */
  function NetFor(ds: seq<Legislator>, id: nat): int {
    if ds == [] then 0
    else NetFor(ds[..|ds| - 1], id) + (if ds[|ds| - 1].info.id == id then TotalNet(ds[|ds| - 1].expenses) else 0)
  }

  /** Some record of legislator `id` has an expense entry. */
  predicate HasEntries(ds: seq<Legislator>, id: nat) {
    ds != [] && (HasEntries(ds[..|ds| - 1], id) || (ds[|ds| - 1].info.id == id && EntryCount(ds[|ds| - 1].expenses) > 0))
  }

  /** `HasEntries` holds exactly when some record of `id` has an entry. */
  lemma {:induction false} HasEntriesSome(ds: seq<Legislator>, id: nat)
    ensures HasEntries(ds, id) <==> exists k :: 0 <= k < |ds| && ds[k].info.id == id && EntryCount(ds[k].expenses) > 0
  {
    if ds != [] {
      var n := |ds| - 1;
      HasEntriesSome(ds[..n], id);
      if HasEntries(ds[..n], id) {
        var k :| 0 <= k < n && ds[..n][k].info.id == id && EntryCount(ds[..n][k].expenses) > 0;
        assert ds[k] == ds[..n][k];
      }
      if exists k :: 0 <= k < |ds| && ds[k].info.id == id && EntryCount(ds[k].expenses) > 0 {
        var k :| 0 <= k < |ds| && ds[k].info.id == id && EntryCount(ds[k].expenses) > 0;
        if k < n { assert ds[..n][k] == ds[k]; }
      }
    }
  }

  // ---- one entry ----

  lemma PostValid(l: Ledger, info: Profile, e: Expense)
    requires ValidLedger(l)
    ensures ValidLedger(Post(l, info, e))
  {
    if info.id in l.accounts {
      PostValidKnown(l, info, e);
    } else {
      PostValidFresh(l, info, e);
    }
  }

  lemma PostValidKnown(l: Ledger, info: Profile, e: Expense)
    requires ValidLedger(l) && info.id in l.accounts
    ensures ValidLedger(Post(l, info, e))
  {
    var r := Post(l, info, e);
    assert r.order == l.order;
    assert forall k :: k in r.accounts <==> k in l.accounts;
  }

  lemma PostValidFresh(l: Ledger, info: Profile, e: Expense)
    requires ValidLedger(l) && info.id !in l.accounts
    ensures ValidLedger(Post(l, info, e))
  {
    var id := info.id;
    var r := Post(l, info, e);
    assert id !in l.order;
    assert r.order == l.order + [id];
    assert forall k :: k in r.order <==> k in l.order || k == id;
    assert DistinctCategories(AddTo([], e.category, e.netValue));
  }

  lemma PostSum(l: Ledger, info: Profile, e: Expense, id: nat)
    ensures SumOf(Post(l, info, e), id) == SumOf(l, id) + (if id == info.id then e.netValue else 0)
  {
  }

  lemma PostKeys(l: Ledger, info: Profile, e: Expense)
    ensures forall id :: id in Post(l, info, e).accounts <==> id in l.accounts || id == info.id
  {
  }

  // ---- one month ----

  lemma {:induction false} EntriesFacts(l: Ledger, info: Profile, es: seq<Expense>, id: nat)
    ensures ValidLedger(l) ==> ValidLedger(PostEntries(l, info, es))
    ensures SumOf(PostEntries(l, info, es), id) == SumOf(l, id) + (if id == info.id then NetSum(es) else 0)
    ensures id in PostEntries(l, info, es).accounts <==> id in l.accounts || (id == info.id && es != [])
  {
    if es != [] {
      var n := |es| - 1;
      EntriesFacts(l, info, es[..n], id);
      var p := PostEntries(l, info, es[..n]);
      PostSum(p, info, es[n], id);
      PostKeys(p, info, es[n]);
      if ValidLedger(l) { PostValid(p, info, es[n]); }
    }
  }

  // ---- one legislator ----

  lemma {:induction false} BatchesFacts(l: Ledger, info: Profile, g: seq<MonthlyBatch>, id: nat)
    ensures ValidLedger(l) ==> ValidLedger(PostBatches(l, info, g))
    ensures SumOf(PostBatches(l, info, g), id) == SumOf(l, id) + (if id == info.id then TotalNet(g) else 0)
    ensures id in PostBatches(l, info, g).accounts <==> id in l.accounts || (id == info.id && EntryCount(g) > 0)
  {
    if g != [] {
      var n := |g| - 1;
      BatchesFacts(l, info, g[..n], id);
      EntriesFacts(PostBatches(l, info, g[..n]), info, g[n].entries, id);
    }
  }

  // ---- all legislators ----

  lemma {:induction false} AllFacts(l: Ledger, ds: seq<Legislator>, id: nat)
    ensures ValidLedger(l) ==> ValidLedger(PostAll(l, ds))
    ensures SumOf(PostAll(l, ds), id) == SumOf(l, id) + NetFor(ds, id)
    ensures id in PostAll(l, ds).accounts <==> id in l.accounts || HasEntries(ds, id)
  {
    if ds != [] {
      var n := |ds| - 1;
      AllFacts(l, ds[..n], id);
      BatchesFacts(PostAll(l, ds[..n]), ds[n].info, ds[n].expenses, id);
    }
  }

  // ---- per category ----

  /** The sum of `valorLiquido` over the entries of category `x`. */
  function EntriesIn(es: seq<Expense>, x: string): int {
    if es == [] then 0
    else EntriesIn(es[..|es| - 1], x) + (if es[|es| - 1].category == x then es[|es| - 1].netValue else 0)
  }

  /** The sum of `valorLiquido` over the entries of category `x` of all months. */
  function HistoryIn(g: seq<MonthlyBatch>, x: string): int {
    if g == [] then 0 else HistoryIn(g[..|g| - 1], x) + EntriesIn(g[|g| - 1].entries, x)
  }

  /** The sum of `valorLiquido` over the entries of category `x` of all
      records of legislator `id`. */
  function CategoryNet(ds: seq<Legislator>, id: nat, x: string): int {
    if ds == [] then 0
    else CategoryNet(ds[..|ds| - 1], id, x) + (if ds[|ds| - 1].info.id == id then HistoryIn(ds[|ds| - 1].expenses, x) else 0)
  }

  /** The total of category `x` in the record of `id`, 0 without a record. */
  function TotalIn(l: Ledger, id: nat, x: string): int {
    if id in l.accounts then TotalOf(l.accounts[id].totals, x) else 0
  }

  /** One entry adds its value to its own category of its own legislator only. */
  lemma PostTotal(l: Ledger, info: Profile, e: Expense, id: nat, x: string)
    ensures TotalIn(Post(l, info, e), id, x)
            == TotalIn(l, id, x) + (if id == info.id && e.category == x then e.netValue else 0)
  {
    assert TotalOf([], x) == 0;
  }

  /** One month's entries add their category-`x` sum to their own legislator only. */
  lemma {:induction false} EntriesTotal(l: Ledger, info: Profile, es: seq<Expense>, id: nat, x: string)
    ensures TotalIn(PostEntries(l, info, es), id, x) == TotalIn(l, id, x) + (if id == info.id then EntriesIn(es, x) else 0)
  {
    if es != [] {
      var n := |es| - 1;
      EntriesTotal(l, info, es[..n], id, x);
      PostTotal(PostEntries(l, info, es[..n]), info, es[n], id, x);
    }
  }

  /** One history adds its category-`x` sum to its own legislator only. */
  lemma {:induction false} BatchesTotal(l: Ledger, info: Profile, g: seq<MonthlyBatch>, id: nat, x: string)
    ensures TotalIn(PostBatches(l, info, g), id, x) == TotalIn(l, id, x) + (if id == info.id then HistoryIn(g, x) else 0)
  {
    if g != [] {
      var n := |g| - 1;
      BatchesTotal(l, info, g[..n], id, x);
      EntriesTotal(PostBatches(l, info, g[..n]), info, g[n].entries, id, x);
    }
  }

  /** All records add, to each legislator, their category-`x` sum over all records. */
  lemma {:induction false} AllTotal(l: Ledger, ds: seq<Legislator>, id: nat, x: string)
    ensures TotalIn(PostAll(l, ds), id, x) == TotalIn(l, id, x) + CategoryNet(ds, id, x)
  {
    if ds != [] {
      var n := |ds| - 1;
      AllTotal(l, ds[..n], id, x);
      BatchesTotal(PostAll(l, ds[..n]), ds[n].info, ds[n].expenses, id, x);
    }
  }

  /** Each category total of a legislator's record is the sum of
      `valorLiquido` over all their entries of that category. */
  lemma BreakdownCategories(ds: seq<Legislator>, id: nat)
    requires id in Breakdowns(ds).accounts
    ensures forall x :: TotalOf(Breakdowns(ds).accounts[id].totals, x) == CategoryNet(ds, id, x)
  {
    forall x ensures TotalOf(Breakdowns(ds).accounts[id].totals, x) == CategoryNet(ds, id, x) {
      AllTotal(Ledger([], map[]), ds, id, x);
    }
  }

  // ---- insertion order ----

  /** The ids of the legislators with an expense entry, each once, in the
      order of the first record of each that has an entry. */
  function FirstIds(ds: seq<Legislator>): seq<nat>
  {
    if ds == [] then []
    else
      var p := FirstIds(ds[..|ds| - 1]);
      var d := ds[|ds| - 1];
      if EntryCount(d.expenses) > 0 && d.info.id !in p then p + [d.info.id] else p
  }

  /** One entry lists its legislator last when the `Map` has no record of them yet. */
  lemma PostOrder(l: Ledger, info: Profile, e: Expense)
    requires forall id :: id in l.accounts <==> id in l.order
    ensures Post(l, info, e).order == if info.id in l.order then l.order else l.order + [info.id]
  {
  }

  /** One month lists its legislator last when it has an entry and they are not listed yet. */
  lemma {:induction false} EntriesOrder(l: Ledger, info: Profile, es: seq<Expense>)
    requires ValidLedger(l)
    ensures PostEntries(l, info, es).order == if es == [] || info.id in l.order then l.order else l.order + [info.id]
  {
    if es != [] {
      var n := |es| - 1;
      EntriesOrder(l, info, es[..n]);
      EntriesFacts(l, info, es[..n], info.id);
      PostOrder(PostEntries(l, info, es[..n]), info, es[n]);
    }
  }

  /** One history lists its legislator last when it has an entry and they are not listed yet. */
  lemma {:induction false} BatchesOrder(l: Ledger, info: Profile, g: seq<MonthlyBatch>)
    requires ValidLedger(l)
    ensures PostBatches(l, info, g).order == if EntryCount(g) == 0 || info.id in l.order then l.order else l.order + [info.id]
  {
    if g != [] {
      var n := |g| - 1;
      BatchesOrder(l, info, g[..n]);
      BatchesFacts(l, info, g[..n], info.id);
      EntriesOrder(PostBatches(l, info, g[..n]), info, g[n].entries);
    }
  }

  /** The `Map` lists the legislators in the order of their first entry. */
  lemma {:induction false} BreakdownOrder(ds: seq<Legislator>)
    ensures Breakdowns(ds).order == FirstIds(ds)
  {
    if ds != [] {
      var n := |ds| - 1;
      BreakdownOrder(ds[..n]);
      AllFacts(Ledger([], map[]), ds[..n], 0);
      BatchesOrder(Breakdowns(ds[..n]), ds[n].info, ds[n].expenses);
    }
  }

  /** The breakdown is well formed; a legislator has a record exactly when
      one of their records has an expense entry, and the category totals of
      that record add up to the sum of `valorLiquido` over all their entries. */
  lemma BreakdownFacts(ds: seq<Legislator>, id: nat)
    ensures ValidLedger(Breakdowns(ds))
    ensures id in Breakdowns(ds).accounts <==> exists k :: 0 <= k < |ds| && ds[k].info.id == id && EntryCount(ds[k].expenses) > 0
    ensures id in Breakdowns(ds).accounts ==> TotalsSum(Breakdowns(ds).accounts[id].totals) == NetFor(ds, id)
  {
    AllFacts(Ledger([], map[]), ds, id);
    HasEntriesSome(ds, id);
  }

  /** `[...gastos.values()]`: the records in insertion order. */
  function Values(l: Ledger): seq<Account>
    requires forall id :: id in l.order ==> id in l.accounts
  {
    seq(|l.order|, k requires 0 <= k < |l.order| => l.accounts[l.order[k]])
  }

  /** The list written out holds one record per legislator with an expense
      entry, no legislator twice, in the order of their first entry; each
      category total of a record is that legislator's net expenses in that
      category, and the totals add up to their net expenses. */
  lemma BreakdownValues(ds: seq<Legislator>)
    ensures var l := Breakdowns(ds);
            && (forall id :: id in l.order ==> id in l.accounts)
            && var vs := Values(l);
            && (forall i, j :: 0 <= i < j < |vs| ==> vs[i].header.id != vs[j].header.id)
            && (forall i :: 0 <= i < |vs| ==> TotalsSum(vs[i].totals) == NetFor(ds, vs[i].header.id))
            && (forall i :: 0 <= i < |vs| ==> vs[i].header.id == l.order[i])
            && (forall id :: id in l.order <==>
                  (exists k :: 0 <= k < |ds| && ds[k].info.id == id && EntryCount(ds[k].expenses) > 0))
            && l.order == FirstIds(ds)
            && (forall i, x :: 0 <= i < |vs| ==> TotalOf(vs[i].totals, x) == CategoryNet(ds, vs[i].header.id, x))
  {
    var l := Breakdowns(ds);
    BreakdownFacts(ds, 0);
    BreakdownOrder(ds);
    var vs := Values(l);
    forall i | 0 <= i < |vs| ensures forall x :: TotalOf(vs[i].totals, x) == CategoryNet(ds, vs[i].header.id, x) {
      BreakdownFacts(ds, l.order[i]);
      BreakdownCategories(ds, l.order[i]);
    }
    forall i | 0 <= i < |vs| ensures TotalsSum(vs[i].totals) == NetFor(ds, vs[i].header.id) {
      BreakdownFacts(ds, l.order[i]);
    }
    forall id | true ensures id in l.order <==>
                  (exists k :: 0 <= k < |ds| && ds[k].info.id == id && EntryCount(ds[k].expenses) > 0) {
      BreakdownFacts(ds, id);
    }
  }

  /** The innermost `forEach` (lines 451-469): the entries of one month of
      legislator `info`; the record of `info.id` is created on its first
      entry, with its identity, and each entry adds to its category. */
  method PostMonth(order0: seq<nat>, accounts0: map<nat, Account>, info: Profile, es: seq<Expense>)
    returns (order: seq<nat>, accounts: map<nat, Account>)
    ensures Ledger(order, accounts) == PostEntries(Ledger(order0, accounts0), info, es)
  {
    order, accounts := order0, accounts0;
    var k := 0;
    while k < |es|
      invariant 0 <= k <= |es|
      invariant Ledger(order, accounts) == PostEntries(Ledger(order0, accounts0), info, es[..k])
    {
      var c := es[k];
      ghost var prev := Ledger(order, accounts);
      if info.id !in accounts {
        accounts := accounts[info.id := Account(HeaderOf(info), [])];
        order := order + [info.id];
      }
      var gasto := accounts[info.id];
      accounts := accounts[info.id := Account(gasto.header, AddTo(gasto.totals, c.category, c.netValue))];
      assert Ledger(order, accounts) == Post(prev, info, c);
      assert es[..k + 1][..k] == es[..k];
      k := k + 1;
    }
    assert es[..k] == es;
  }

  /** The middle `forEach` (lines 450-470): the months of one legislator. */
  method PostLegislator(order0: seq<nat>, accounts0: map<nat, Account>, d: Legislator)
    returns (order: seq<nat>, accounts: map<nat, Account>)
    ensures Ledger(order, accounts) == PostBatches(Ledger(order0, accounts0), d.info, d.expenses)
  {
    order, accounts := order0, accounts0;
    var j := 0;
    while j < |d.expenses|
      invariant 0 <= j <= |d.expenses|
      invariant Ledger(order, accounts) == PostBatches(Ledger(order0, accounts0), d.info, d.expenses[..j])
    {
      order, accounts := PostMonth(order, accounts, d.info, d.expenses[j].entries);
      assert d.expenses[..j + 1][..j] == d.expenses[..j];
      j := j + 1;
    }
    assert d.expenses[..j] == d.expenses;
  }

  /** Lines 448-471: `gastos`, filled by the outer `forEach` over the merged
      records. */
  method BucketExpenses(ds: seq<Legislator>) returns (order: seq<nat>, accounts: map<nat, Account>)
    ensures Ledger(order, accounts) == Breakdowns(ds)
  {
    order := [];
    accounts := map[];
    var i := 0;
    while i < |ds|
      invariant 0 <= i <= |ds|
      invariant Ledger(order, accounts) == PostAll(Ledger([], map[]), ds[..i])
    {
      order, accounts := PostLegislator(order, accounts, ds[i]);
      assert ds[..i + 1][..i] == ds[..i];
      i := i + 1;
    }
    assert ds[..i] == ds;
  }
}
