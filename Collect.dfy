/** Collection of one legislator and of one party: `getGastosPeriodo`, the
    per-year page readers, and the member loop of `getInfoDeputados`. */
module Collect {
  import opened Wrappers
  import opened Records
  import opened Sources
  import opened Periods
  import opened Extract

  /** The expense lists of `reqs`, fetched in order; the first failing fetch
      ends the collection with its error. */
  function ExpenseBatchesOf(remote: Remote, reqs: seq<PeriodRequest>): (r: Result<seq<MonthlyBatch>>)
    ensures r.Ok? <==> forall k :: 0 <= k < |reqs| ==> remote.expenses(reqs[k].query).Ok?
    ensures r.Ok? ==> |r.value| == |reqs|
    ensures r.Ok? ==> forall k :: 0 <= k < |reqs| ==>
              r.value[k] == MonthlyBatch(reqs[k].period, remote.expenses(reqs[k].query).value)
  {
    if reqs == [] then Ok([])
    else
      var last := reqs[|reqs| - 1];
      var done :- ExpenseBatchesOf(remote, reqs[..|reqs| - 1]);
      var entries :- remote.expenses(last.query);
      Ok(done + [MonthlyBatch(last.period, entries)])
  }

  /** When some fetch fails, the error is that of the first failing one. */
  lemma {:induction false} ExpenseBatchesFirstError(remote: Remote, reqs: seq<PeriodRequest>, k: nat)
    requires k < |reqs| && remote.expenses(reqs[k].query).Err?
    requires forall j :: 0 <= j < k ==> remote.expenses(reqs[j].query).Ok?
    ensures ExpenseBatchesOf(remote, reqs) == Err(remote.expenses(reqs[k].query).error)
  {
    var n := |reqs| - 1;
    if k < n {
      ExpenseBatchesFirstError(remote, reqs[..n], k);
    } else {
      assert ExpenseBatchesOf(remote, reqs[..n]).Ok?;
    }
  }

  /** The loop of lines 226-234, pushing one batch per request. */
  method FetchExpenses(remote: Remote, reqs: seq<PeriodRequest>) returns (r: Result<seq<MonthlyBatch>>)
    ensures r == ExpenseBatchesOf(remote, reqs)
  {
    var resultado: seq<MonthlyBatch> := [];
    var i := 0;
    while i < |reqs|
      invariant 0 <= i <= |reqs|
      invariant ExpenseBatchesOf(remote, reqs[..i]) == Ok(resultado)
      invariant forall j :: 0 <= j < i ==> remote.expenses(reqs[j].query).Ok?
    {
      var p := reqs[i];
      assert reqs[..i + 1][..i] == reqs[..i];
      var answer := remote.expenses(p.query);
      if answer.Err? {
        ExpenseBatchesFirstError(remote, reqs, i);
        return Err(answer.error);
      }
      resultado := resultado + [MonthlyBatch(p.period, answer.value)];
      i := i + 1;
    }
    assert reqs[..i] == reqs;
    r := Ok(resultado);
  }

  /** `getGastosPeriodo`: the sixteen reference months of one legislator. */
  method GastosPeriodo(remote: Remote, id: nat) returns (r: Result<seq<MonthlyBatch>>)
    ensures r == ExpenseBatchesOf(remote, Requests(id, REFERENCE))
  {
    var urlPeriodo := BuildRequests(id, REFERENCE);
    r := FetchExpenses(remote, urlPeriodo);
  }

  /** A collected expense history has one batch per reference month, in
      order, "2019-01" first and "2020-04" last. */
  lemma GastosPeriods(remote: Remote, id: nat)
    requires ExpenseBatchesOf(remote, Requests(id, REFERENCE)).Ok?
    ensures var g := ExpenseBatchesOf(remote, Requests(id, REFERENCE)).value;
            && |g| == 16
            && (forall k :: 0 <= k < 16 ==> g[k].period == Requests(id, REFERENCE)[k].period)
            && g[0].period == "2019-01" && g[15].period == "2020-04"
  {
    ReferencePeriods(id);
    ReferenceEnds(id);
  }

  /** `getVerbas`: fetch the office-budget page and read it. */
  function BudgetAt(remote: Remote, id: nat, year: nat): Result<OfficeBudget>
  {
    var doc :- remote.page(BudgetPage(id, year));
    BudgetOf(doc)
  }

  /** `getRecursos`: fetch the resources page and read it; reading never fails. */
  function ResourcesAt(remote: Remote, id: nat, year: nat): Result<Resources>
  {
    var doc :- remote.page(ResourcesPage(id, year));
    Ok(ResourcesOf(doc))
  }

  /** `getAtuacoes`: fetch the activity page and read it. */
  function ActivityAt(remote: Remote, id: nat, year: nat): Result<Activity>
  {
    var doc :- remote.page(ActivityPage(id, year));
    ActivityOf(doc, id, year)
  }

  /** `getRecursosPeriodo`: the resources of 2019, then those of 2020. */
  function ResourcesPeriodOf(remote: Remote, id: nat): (r: Result<(Resources, Resources)>)
    ensures r.Ok? <==> ResourcesAt(remote, id, 2019).Ok? && ResourcesAt(remote, id, 2020).Ok?
    ensures r.Ok? ==> r.value == (ResourcesAt(remote, id, 2019).value, ResourcesAt(remote, id, 2020).value)
    ensures r.Err? && ResourcesAt(remote, id, 2019).Err? ==> r.error == ResourcesAt(remote, id, 2019).error
  {
    var recursos2019 :- ResourcesAt(remote, id, 2019);
    var recursos2020 :- ResourcesAt(remote, id, 2020);
    Ok((recursos2019, recursos2020))
  }

  /** `getAtuacoesPeriodo`: the activity of 2019, then that of 2020. */
  function ActivityPeriodOf(remote: Remote, id: nat): (r: Result<(Activity, Activity)>)
    ensures r.Ok? <==> ActivityAt(remote, id, 2019).Ok? && ActivityAt(remote, id, 2020).Ok?
    ensures r.Ok? ==> r.value == (ActivityAt(remote, id, 2019).value, ActivityAt(remote, id, 2020).value)
    ensures r.Err? && ActivityAt(remote, id, 2019).Err? ==> r.error == ActivityAt(remote, id, 2019).error
  {
    var atuacao2019 :- ActivityAt(remote, id, 2019);
    var atuacao2020 :- ActivityAt(remote, id, 2020);
    Ok((atuacao2019, atuacao2020))
  }

  /** `anos` of `getVerbasPeriodo`. */
  const BUDGET_YEARS: seq<nat> := [2019, 2020]

  /** What `read` gives for each year of `years`, paired with its year, read
      in order; the first failing read ends the list with its error. */
  function ByYear(read: nat -> Result<OfficeBudget>, years: seq<nat>): (r: Result<seq<(nat, OfficeBudget)>>)
    ensures r.Ok? <==> forall k :: 0 <= k < |years| ==> read(years[k]).Ok?
    ensures r.Ok? ==> |r.value| == |years|
    ensures r.Ok? ==> forall k :: 0 <= k < |years| ==> r.value[k] == (years[k], read(years[k]).value)
  {
    if years == [] then Ok([])
    else
      var done :- ByYear(read, years[..|years| - 1]);
      var verbas :- read(years[|years| - 1]);
      Ok(done + [(years[|years| - 1], verbas)])
  }

  /** One more year: its budget is appended when it is read, otherwise the
      whole list fails with its error. */
  lemma ByYearStep(read: nat -> Result<OfficeBudget>, years: seq<nat>, i: nat, done: seq<(nat, OfficeBudget)>)
    requires i < |years| && ByYear(read, years[..i]) == Ok(done)
    ensures read(years[i]).Ok? ==> ByYear(read, years[..i + 1]) == Ok(done + [(years[i], read(years[i]).value)])
    ensures read(years[i]).Err? ==> ByYear(read, years) == Err(read(years[i]).error)
  {
    assert years[..i + 1][..i] == years[..i];
    if read(years[i]).Err? {
      ByYearErrPrefix(read, years, i + 1);
    }
  }

  /** A failure among the first years is the failure of the whole list. */
  lemma {:induction false} ByYearErrPrefix(read: nat -> Result<OfficeBudget>, years: seq<nat>, j: nat)
    requires j <= |years| && ByYear(read, years[..j]).Err?
    ensures ByYear(read, years) == ByYear(read, years[..j])
  {
    if j < |years| {
      var n := |years| - 1;
      assert years[..n][..j] == years[..j];
      ByYearErrPrefix(read, years[..n], j);
    } else {
      assert years[..j] == years;
    }
  }

  /** The office-budget reader of one legislator, as a function of the year. */
  function BudgetReader(remote: Remote, id: nat): nat -> Result<OfficeBudget>
  {
    (year: nat) => BudgetAt(remote, id, year)
  }

  /** `getVerbasPeriodo`: the office budget of 2019, then that of 2020. */
  function BudgetPeriodOf(remote: Remote, id: nat): Result<seq<(nat, OfficeBudget)>>
  {
    ByYear(BudgetReader(remote, id), BUDGET_YEARS)
  }

  /** The budget list is produced exactly when both years are read, and then
      it is `[{ano: 2019, verbas}, {ano: 2020, verbas}]`. */
  lemma BudgetPeriodTwoYears(remote: Remote, id: nat)
    ensures BudgetPeriodOf(remote, id).Ok? <==> BudgetAt(remote, id, 2019).Ok? && BudgetAt(remote, id, 2020).Ok?
    ensures BudgetPeriodOf(remote, id).Ok? ==>
              BudgetPeriodOf(remote, id).value == [(2019, BudgetAt(remote, id, 2019).value), (2020, BudgetAt(remote, id, 2020).value)]
  {
    var read := BudgetReader(remote, id);
    assert BUDGET_YEARS == [2019, 2020];
    ByYearTwo(read, 2019, 2020);
    assert read(2019) == BudgetAt(remote, id, 2019) && read(2020) == BudgetAt(remote, id, 2020);
  }

  /** Reading two years: both reads succeed, or the list fails. */
  lemma ByYearTwo(read: nat -> Result<OfficeBudget>, a: nat, b: nat)
    ensures ByYear(read, [a, b]).Ok? <==> read(a).Ok? && read(b).Ok?
    ensures ByYear(read, [a, b]).Ok? ==> ByYear(read, [a, b]).value == [(a, read(a).value), (b, read(b).value)]
  {
    var years := [a, b];
    assert years[0] == a && years[1] == b && |years| == 2;
    var r := ByYear(read, years);
    if read(a).Ok? && read(b).Ok? {
      assert forall k :: 0 <= k < 2 ==> read(years[k]).Ok?;
    }
    if r.Ok? {
      assert r.value[0] == (a, read(a).value);
      assert r.value[1] == (b, read(b).value);
    }
  }

  /** The composite record of one legislator (lines 264-270): profile, expense
      history, resources, activity and office budget, collected in that order;
      the first failure ends the collection. */
  function MemberOf(remote: Remote, id: nat): Result<Legislator>
  {
    var info :- remote.profile(ProfileAt(id));
    var gastos :- ExpenseBatchesOf(remote, Requests(id, REFERENCE));
    var recursos :- ResourcesPeriodOf(remote, id);
    var atuacoes :- ActivityPeriodOf(remote, id);
    var verbas :- BudgetPeriodOf(remote, id);
    Ok(Legislator(info, gastos, recursos.0, recursos.1, atuacoes.0, atuacoes.1, verbas[0].1, verbas[1].1))
  }

  /** A legislator's record is produced exactly when all eight reads succeed. */
  lemma MemberOkIff(remote: Remote, id: nat)
    ensures MemberOf(remote, id).Ok? <==>
              && remote.profile(ProfileAt(id)).Ok?
              && ExpenseBatchesOf(remote, Requests(id, REFERENCE)).Ok?
              && ResourcesAt(remote, id, 2019).Ok? && ResourcesAt(remote, id, 2020).Ok?
              && ActivityAt(remote, id, 2019).Ok? && ActivityAt(remote, id, 2020).Ok?
              && BudgetAt(remote, id, 2019).Ok? && BudgetAt(remote, id, 2020).Ok?
  {
    BudgetPeriodTwoYears(remote, id);
  }

  /** A produced record holds the expense history its own reads returned. */
  lemma MemberExpenses(remote: Remote, id: nat)
    requires MemberOf(remote, id).Ok?
    ensures Ok(MemberOf(remote, id).value.expenses) == ExpenseBatchesOf(remote, Requests(id, REFERENCE))
  {
    var info := remote.profile(ProfileAt(id));
    var gastos := ExpenseBatchesOf(remote, Requests(id, REFERENCE));
    var recursos := ResourcesPeriodOf(remote, id);
    var atuacoes := ActivityPeriodOf(remote, id);
    var verbas := BudgetPeriodOf(remote, id);
    assert info.Ok? && gastos.Ok? && recursos.Ok? && atuacoes.Ok? && verbas.Ok?;
    assert MemberOf(remote, id) == Ok(Legislator(info.value, gastos.value, recursos.value.0, recursos.value.1,
                                                 atuacoes.value.0, atuacoes.value.1, verbas.value[0].1, verbas.value[1].1));
  }

  /** An activity page without the two quantity nodes fails the whole
      legislator: no record is produced for them. */
  lemma MissingAnchorsAbort(remote: Remote, id: nat, year: nat)
    requires year == 2019 || year == 2020
    requires remote.page(ActivityPage(id, year)).Ok?
    requires |remote.page(ActivityPage(id, year)).value.select(QuantityNodes)| < 2
    ensures ActivityAt(remote, id, year) == Err(MalformedPage)
    ensures MemberOf(remote, id).Err?
  {
  }

  /** The body of the member loop: one legislator, read in the source's order. */
  method CollectMember(remote: Remote, id: nat) returns (r: Result<Legislator>)
    ensures r == MemberOf(remote, id)
  {
    var info :- remote.profile(ProfileAt(id));
    var gastos :- GastosPeriodo(remote, id);
    var recursos2019 :- ReadResources(remote, id, 2019);
    var recursos2020 :- ReadResources(remote, id, 2020);
    var atuacao2019 :- ReadActivity(remote, id, 2019);
    var atuacao2020 :- ReadActivity(remote, id, 2020);
    var verbas := VerbasPeriodo(remote, id);
    if verbas.Err? {
      return Err(verbas.error);
    }
    r := Ok(Legislator(info, gastos, recursos2019, recursos2020, atuacao2019, atuacao2020, verbas.value[0].1, verbas.value[1].1));
  }

  /** `getVerbasPeriodo` over the two years of `anos`. */
  method VerbasPeriodo(remote: Remote, id: nat) returns (r: Result<seq<(nat, OfficeBudget)>>)
    ensures r == BudgetPeriodOf(remote, id)
  {
    r := BudgetsByYear(remote, id, BUDGET_YEARS);
  }

  /** The loop of lines 64-70: one office budget per year, in order, the first
      failure returned. */
  method BudgetsByYear(remote: Remote, id: nat, anos: seq<nat>) returns (r: Result<seq<(nat, OfficeBudget)>>)
    ensures r == ByYear(BudgetReader(remote, id), anos)
  {
    var resultado: seq<(nat, OfficeBudget)> := [];
    var i := 0;
    while i < |anos|
      invariant 0 <= i <= |anos|
      invariant ByYear(BudgetReader(remote, id), anos[..i]) == Ok(resultado)
    {
      var verbas := ReadBudget(remote, id, anos[i]);
      assert verbas == BudgetReader(remote, id)(anos[i]);
      ByYearStep(BudgetReader(remote, id), anos, i, resultado);
      if verbas.Err? {
        return Err(verbas.error);
      }
      resultado := resultado + [(anos[i], verbas.value)];
      i := i + 1;
    }
    assert anos[..i] == anos;
    r := Ok(resultado);
  }

  method ReadBudget(remote: Remote, id: nat, year: nat) returns (r: Result<OfficeBudget>)
    ensures r == BudgetAt(remote, id, year)
  {
    var doc :- remote.page(BudgetPage(id, year));
    r := ParseBudget(doc);
  }

  method ReadResources(remote: Remote, id: nat, year: nat) returns (r: Result<Resources>)
    ensures r == ResourcesAt(remote, id, year)
  {
    var doc :- remote.page(ResourcesPage(id, year));
    r := Ok(ResourcesOf(doc));
  }

  method ReadActivity(remote: Remote, id: nat, year: nat) returns (r: Result<Activity>)
    ensures r == ActivityAt(remote, id, year)
  {
    var doc :- remote.page(ActivityPage(id, year));
    r := ActivityOf(doc, id, year);
  }

  /** The roster members of one party, in roster order (lines 242-244). */
  function PartyMembers(roster: seq<RosterEntry>, code: string): (r: seq<RosterEntry>)
    ensures |r| <= |roster|
    ensures forall e :: e in r <==> e in roster && e.partyCode == code
  {
    if roster == [] then []
    else
      var last := roster[|roster| - 1];
      var done := PartyMembers(roster[..|roster| - 1], code);
      if last.partyCode == code then done + [last] else done
  }

  /** Filtering keeps the rest of the roster apart: a roster that is one list
      after another has the members of the first followed by those of the second. */
  lemma {:induction false} PartyMembersConcat(a: seq<RosterEntry>, b: seq<RosterEntry>, code: string)
    ensures PartyMembers(a + b, code) == PartyMembers(a, code) + PartyMembers(b, code)
  {
    if b != [] {
      var n := |b| - 1;
      assert (a + b)[..|a + b| - 1] == a + b[..n];
      PartyMembersConcat(a, b[..n], code);
    } else {
      assert a + b == a;
    }
  }

  /** The records of `members`, each produced by `collect` from the member's
      id, gathered one after the other; the first failing member ends the
      gathering. */
  function Gather(collect: nat -> Result<Legislator>, members: seq<RosterEntry>): (r: Result<seq<Legislator>>)
    ensures r.Ok? <==> forall k :: 0 <= k < |members| ==> collect(members[k].id).Ok?
    ensures r.Ok? ==> |r.value| == |members|
    ensures r.Ok? ==> forall k :: 0 <= k < |members| ==> r.value[k] == collect(members[k].id).value
  {
    if members == [] then Ok([])
    else
      var done :- Gather(collect, members[..|members| - 1]);
      var last :- collect(members[|members| - 1].id);
      Ok(done + [last])
  }

  /** When some member fails, the gathering fails with the first failing member's error. */
  lemma {:induction false} GatherFirstError(collect: nat -> Result<Legislator>, members: seq<RosterEntry>, k: nat)
    requires k < |members| && collect(members[k].id).Err?
    requires forall j :: 0 <= j < k ==> collect(members[j].id).Ok?
    ensures Gather(collect, members) == Err(collect(members[k].id).error)
  {
    var n := |members| - 1;
    if k < n {
      GatherFirstError(collect, members[..n], k);
    } else {
      assert Gather(collect, members[..n]).Ok?;
    }
  }

  /** One more member gathered after a successful prefix. */
  lemma GatherStep(collect: nat -> Result<Legislator>, members: seq<RosterEntry>, i: nat, done: seq<Legislator>)
    requires i < |members| && Gather(collect, members[..i]) == Ok(done)
    ensures collect(members[i].id).Ok? ==> Gather(collect, members[..i + 1]) == Ok(done + [collect(members[i].id).value])
    ensures collect(members[i].id).Err? ==> Gather(collect, members) == Err(collect(members[i].id).error)
  {
    assert members[..i + 1][..i] == members[..i];
    if collect(members[i].id).Err? {
      assert forall j :: 0 <= j < i ==> members[..i][j] == members[j];
      GatherFirstError(collect, members, i);
    }
  }

  /** Collection of one member, as a function of the member's id. */
  function Collector(remote: Remote): nat -> Result<Legislator>
  {
    (id: nat) => MemberOf(remote, id)
  }

  /** The records of one party's members, collected in roster order. */
  function PartyOf(remote: Remote, members: seq<RosterEntry>): Result<seq<Legislator>>
  {
    Gather(Collector(remote), members)
  }

  /** `getInfoDeputados`: the roster filtered to the party, then the records
      of its members collected in order. */
  method CollectParty(remote: Remote, roster: seq<RosterEntry>, code: string) returns (r: Result<seq<Legislator>>)
    ensures r == PartyOf(remote, PartyMembers(roster, code))
  {
    var deputados := PartyMembers(roster, code);
    r := CollectMembers(remote, deputados);
  }

  /** The loop of lines 260-271: one record per member; the first failure
      ends the loop with its error. */
  method CollectMembers(remote: Remote, deputados: seq<RosterEntry>) returns (r: Result<seq<Legislator>>)
    ensures r == Gather(Collector(remote), deputados)
  {
    var deputadosGastos: seq<Legislator> := [];
    var i := 0;
    while i < |deputados|
      invariant 0 <= i <= |deputados|
      invariant Gather(Collector(remote), deputados[..i]) == Ok(deputadosGastos)
    {
      var info := CollectMember(remote, deputados[i].id);
      assert info == Collector(remote)(deputados[i].id);
      GatherStep(Collector(remote), deputados, i, deputadosGastos);
      if info.Err? {
        return Err(info.error);
      }
      deputadosGastos := deputadosGastos + [info.value];
      i := i + 1;
    }
    assert deputados[..i] == deputados;
    r := Ok(deputadosGastos);
  }
}
