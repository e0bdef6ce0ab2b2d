/** The aggregation of `run`: the party checkpoints merged into one list,
    the per-year figures of each legislator (`deputadoTotalizadorAno`), and
    their totals with the composite score `auxilioCotaVerbas`
    (`deputadoTotalizador`). */
module Aggregate {
  import opened Wrappers
  import opened Numbers
  import opened Strings
  import opened Records
  import opened Sources
  import opened Periods
  import opened Extract
  import opened Collect
  import opened Checkpoints

  // ---- merge (lines 307-321) ----

  /** The party lists of `listing`, one after the other. */
  function Merged(saved: Saved, listing: seq<string>): (r: seq<Legislator>)
    requires forall c :: c in listing ==> c in saved
    ensures |r| == MergedCount(saved, listing)
  {
    if listing == [] then []
    else Merged(saved, listing[..|listing| - 1]) + saved[listing[|listing| - 1]]
  }

  /** The sum of the lengths of the party lists of `listing`. */
  function MergedCount(saved: Saved, listing: seq<string>): nat
    requires forall c :: c in listing ==> c in saved
  {
    if listing == [] then 0
    else MergedCount(saved, listing[..|listing| - 1]) + |saved[listing[|listing| - 1]]|
  }

  /** A record is in the merged list exactly when it is in the list of some listed party. */
  lemma {:induction false} MergedMembers(saved: Saved, listing: seq<string>, d: Legislator)
    requires forall c :: c in listing ==> c in saved
    ensures d in Merged(saved, listing) <==> exists c :: c in listing && d in saved[c]
  {
    if listing != [] {
      var n := |listing| - 1;
      MergedMembers(saved, listing[..n], d);
      assert forall c :: c in listing[..n] ==> c in listing;
      assert forall c :: c in listing ==> c in listing[..n] || c == listing[n];
    }
  }

  /** Merging one listing after another concatenates the two merges. */
  lemma {:induction false} MergedConcat(saved: Saved, a: seq<string>, b: seq<string>)
    requires forall c :: c in a + b ==> c in saved
    ensures Merged(saved, a + b) == Merged(saved, a) + Merged(saved, b)
  {
    if b == [] {
      assert a + b == a;
    } else {
      var n := |b| - 1;
      ConcatLast(a, b);
      MergedConcat(saved, a, b[..n]);
      MergedAssoc(Merged(saved, a), Merged(saved, b[..n]), saved[b[n]]);
    }
  }

  /** Dropping the last name of `a + b`, for a non-empty `b`, drops the last name of `b`. */
  lemma ConcatLast(a: seq<string>, b: seq<string>)
    requires b != []
    ensures (a + b)[..|a + b| - 1] == a + b[..|b| - 1] && (a + b)[|a + b| - 1] == b[|b| - 1]
  {
  }

  /** Concatenation of merged lists is associative. */
  lemma MergedAssoc(x: seq<Legislator>, y: seq<Legislator>, z: seq<Legislator>)
    ensures (x + y) + z == x + (y + z)
  {
  }

  /** The names of `listing`, each once, in the order of first occurrence:
      the keys of `todos` (line 309) after every name was stored. */
  function Distinct(listing: seq<string>): (r: seq<string>)
    ensures forall c :: c in r <==> c in listing
  {
    if listing == [] then []
    else
      var p := Distinct(listing[..|listing| - 1]);
      var c := listing[|listing| - 1];
      assert forall e :: e in listing <==> e in listing[..|listing| - 1] || e == c;
      if c in p then p else p + [c]
  }

  /** No name is kept twice. */
  lemma {:induction false} DistinctUnique(listing: seq<string>)
    ensures forall i, j :: 0 <= i < j < |Distinct(listing)| ==> Distinct(listing)[i] != Distinct(listing)[j]
  {
    if listing != [] {
      var p := Distinct(listing[..|listing| - 1]);
      var c := listing[|listing| - 1];
      var r := Distinct(listing);
      DistinctUnique(listing[..|listing| - 1]);
      if c !in p {
        assert r == p + [c];
        forall i, j | 0 <= i < j < |r| ensures r[i] != r[j] {
          assert r[i] == p[i] && p[i] in p;
          if j < |p| {
            assert r[j] == p[j] && p[i] != p[j];
          }
        }
      }
    }
  }

  /** The listed names that are not files `run` writes itself. */
  function PartyListing(listing: seq<string>): (r: seq<string>)
    ensures forall c :: c in r <==> c in listing && c !in OUTPUT_FILES
  {
    if listing == [] then []
    else
      var p := PartyListing(listing[..|listing| - 1]);
      var c := listing[|listing| - 1];
      assert forall e :: e in listing <==> e in listing[..|listing| - 1] || e == c;
      if c in OUTPUT_FILES then p else p + [c]
  }

  /** Lines 307-321 as written, for a run that reads every file fresh from
      disk (it ignores the `require` cache, which `MergeKeysAsWritten`
      models): every file of the directory is loaded as a party's record
      list, `run`'s own outputs included. Those are not such lists:
      `TODOS.json` holds an object, which the spread at line 320 cannot
      iterate, and the reports hold records without `info`, which line 327
      dereferences; either throws. */
  function MergeAsWritten(saved: Saved, listing: seq<string>): (r: Result<seq<Legislator>>)
    requires forall c :: c in listing ==> c in saved || c in OUTPUT_FILES
    ensures r.Ok? <==> forall c :: c in listing ==> c !in OUTPUT_FILES
    ensures r.Ok? ==> r.value == Merged(saved, Distinct(listing))
  {
    if exists c :: c in listing && c in OUTPUT_FILES then Err(BadCheckpoint)
    else Ok(Merged(saved, Distinct(listing)))
  }

  /** With no output file listed, leaving the outputs out changes nothing. */
  lemma {:induction false} PartyListingNoOutputs(listing: seq<string>)
    requires forall c :: c in listing ==> c !in OUTPUT_FILES
    ensures PartyListing(listing) == listing
  {
    if listing != [] {
      var n := |listing| - 1;
      assert forall c :: c in listing[..n] ==> c in listing;
      PartyListingNoOutputs(listing[..n]);
      assert listing[..n] + [listing[n]] == listing;
    }
  }

  /** On a first run, when the directory holds party checkpoints only, the
      merge as written and the corrected one agree. */
  lemma FirstRunAgrees(saved: Saved, listing: seq<string>)
    requires forall c :: c in listing ==> c in saved && c !in OUTPUT_FILES
    ensures MergeAsWritten(saved, listing) == Ok(Merged(saved, Distinct(PartyListing(listing))))
  {
    PartyListingNoOutputs(listing);
  }

  /** Once a run has completed, the directory also holds its output files.
      A run that then reads every file fresh from disk fails in the merge as
      written, while the corrected merge keeps every party checkpoint. With
      the `require` cache, the first such failure comes later: see
      `ThirdProcessThrows`. */
  lemma RerunAsWrittenFails(saved: Saved, outputs: set<string>, listing: seq<string>)
    requires outputs == OUTPUT_FILES
    requires forall c :: c in listing <==> c in saved || c in outputs
    ensures MergeAsWritten(saved, listing) == Err(BadCheckpoint)
    ensures forall c :: c in Distinct(PartyListing(listing)) <==> c in saved && c !in OUTPUT_FILES
  {
    assert "TODOS" in OUTPUT_FILES;
    assert "TODOS" in listing;
  }

  // ---- the `require` cache of `TODOS.json` (lines 312 and 317) ----

  /** The keys of the `TODOS.json` object seen by one merge as written: what
      line 317 returns (`keys`), what line 315 writes to disk (`written`), and
      what the process's `require` cache holds afterwards (`cache`). */
  datatype TodosLoad = TodosLoad(keys: seq<string>, written: seq<string>, cache: seq<string>)

  /** Lines 307-317 as written, on the keys of `TODOS.json`. `onDisk` holds the
      keys of the file as it is on disk (`None` when there is none) and
      `cache` what `require` has cached of it in this process (`None` before
      its first load). Line 312 loads the file when it is listed, from the
      cache if it is there; line 315 writes the keys of the listing; line
      317 returns the cached object, or the file just written when there was
      none. */
  function MergeKeysAsWritten(onDisk: Option<seq<string>>, cache: Option<seq<string>>, listing: seq<string>): (r: TodosLoad)
    requires "TODOS" in listing ==> onDisk.Some?
    ensures r.written == Distinct(listing)
    ensures r.keys == r.cache
  {
    var loaded := if cache.Some? then cache else if "TODOS" in listing then onDisk else None;
    var written := Distinct(listing);
    var obj := if loaded.Some? then loaded.value else written;
    TodosLoad(obj, written, obj)
  }

  /** Within one process, every later merge sees the object cached by the
      first load, whatever the directory now holds. */
  lemma SameProcessCached(onDisk: Option<seq<string>>, cached: seq<string>, listing: seq<string>)
    requires "TODOS" in listing ==> onDisk.Some?
    ensures MergeKeysAsWritten(onDisk, Some(cached), listing).keys == cached
  {
  }

  /** The first merge of a process that finds `TODOS.json` listed sees the
      file as it was on disk, not the one it writes. */
  lemma FreshProcessReadsDisk(onDisk: seq<string>, listing: seq<string>)
    requires "TODOS" in listing
    ensures MergeKeysAsWritten(Some(onDisk), None, listing).keys == onDisk
  {
  }

  /** The merge throws at line 320 when the object line 317 returns has a
      `TODOS` entry, which is an object and not a record list. */
  predicate ThrowsAt320(r: TodosLoad) {
    "TODOS" in r.keys
  }

  /** The sequence that makes the merge as written throw. Process 1 runs once
      with only party checkpoints in the directory: no throw. Process 2 then
      runs: it reads that party-only file at line 312 (no throw) and rewrites
      it at line 315 with the keys of its listing, `TODOS` among them. The
      first run of process 3 loads that file and throws. Had process 1 run a
      second time instead, that run would have got the cached object (no
      throw, the same parties merged again) but written the `TODOS` key
      already, so the next process to start throws. */
  lemma ThirdProcessThrows(parties: seq<string>)
    requires forall c :: c in parties ==> c !in OUTPUT_FILES
    ensures var first := MergeKeysAsWritten(None, None, parties);
            var listed := parties + ["TODOS", "TOTALIZADORES", "TOTALIZADORES_CONTAS"];
            var again := MergeKeysAsWritten(Some(first.written), Some(first.cache), listed);
            var second := MergeKeysAsWritten(Some(first.written), None, listed);
            var third := MergeKeysAsWritten(Some(second.written), None, listed);
            && first.keys == Distinct(parties) && !ThrowsAt320(first)
            && !ThrowsAt320(second)
            && ThrowsAt320(third)
            && again.keys == first.keys && !ThrowsAt320(again)
            && ThrowsAt320(MergeKeysAsWritten(Some(again.written), None, listed))
  {
    var listed := parties + ["TODOS", "TOTALIZADORES", "TOTALIZADORES_CONTAS"];
    assert "TODOS" in listed;
    assert "TODOS" in OUTPUT_FILES;
  }

  /** Every record of a party checkpoint reaches the corrected merge, and
      nothing else does. */
  lemma MergedParties(saved: Saved, listing: seq<string>, d: Legislator)
    requires forall c :: c in listing ==> c in saved || c in OUTPUT_FILES
    requires forall c :: c in saved && c !in OUTPUT_FILES ==> c in listing
    ensures forall c :: c in Distinct(PartyListing(listing)) ==> c in saved
    ensures d in Merged(saved, Distinct(PartyListing(listing))) <==> exists c :: c in saved && c !in OUTPUT_FILES && d in saved[c]
  {
    var names := Distinct(PartyListing(listing));
    MergedMembers(saved, names, d);
    assert forall c :: c in names <==> c in saved && c !in OUTPUT_FILES;
  }

  /** Loading one more listed name keeps `todos` and its keys in step: an
      output file is skipped, a party name not yet loaded becomes the last
      key, and every loaded list is the party's checkpoint. */
  lemma LoadStep(saved: Saved, listing: seq<string>, k: nat, todos: map<string, seq<Legislator>>, keys: seq<string>)
    requires k < |listing| && (listing[k] in saved || listing[k] in OUTPUT_FILES)
    requires keys == Distinct(PartyListing(listing[..k]))
    requires forall c :: c in todos <==> c in keys
    requires forall c :: c in todos ==> c in saved && todos[c] == saved[c]
    ensures var c := listing[k];
            var next := if c in OUTPUT_FILES then todos else todos[c := saved[c]];
            var nextKeys := if c in OUTPUT_FILES || c in todos then keys else keys + [c];
            && nextKeys == Distinct(PartyListing(listing[..k + 1]))
            && (forall e :: e in next <==> e in nextKeys)
            && (forall e :: e in next ==> e in saved && next[e] == saved[e])
  {
    var c := listing[k];
    assert listing[..k + 1][..k] == listing[..k];
    assert Distinct(PartyListing(listing[..k + 1])) ==
           if c in OUTPUT_FILES || c in keys then keys else keys + [c];
    if c !in OUTPUT_FILES {
      assert forall e :: e in keys + [c] <==> e in keys || e == c;
    }
  }

  /** Merging one more listed party appends its list. */
  lemma MergedStep(saved: Saved, listing: seq<string>, j: nat)
    requires j < |listing| && forall c :: c in listing ==> c in saved
    ensures Merged(saved, listing[..j + 1]) == Merged(saved, listing[..j]) + saved[listing[j]]
  {
    assert listing[..j + 1][..j] == listing[..j];
  }

  /** Lines 307-314, corrected: every listed party checkpoint is loaded
      into `todos`, skipping `run`'s own output files; `keys` are the keys
      of `todos` in insertion order. */
  method LoadCheckpoints(store: CheckpointStore, listing: seq<string>) returns (todos: map<string, seq<Legislator>>, keys: seq<string>)
    requires forall c :: c in listing ==> c in store.saved || c in OUTPUT_FILES
    ensures keys == Distinct(PartyListing(listing))
    ensures forall c :: c in todos <==> c in keys
    ensures forall c :: c in todos ==> c in store.saved && todos[c] == store.saved[c]
  {
    todos := map[];
    keys := [];
    var k := 0;
    while k < |listing|
      invariant 0 <= k <= |listing|
      invariant keys == Distinct(PartyListing(listing[..k]))
      invariant forall c :: c in todos <==> c in keys
      invariant forall c :: c in todos ==> c in store.saved && todos[c] == store.saved[c]
    {
      var sigla := listing[k];
      LoadStep(store.saved, listing, k, todos, keys);
      if sigla !in OUTPUT_FILES {
        if sigla !in todos {
          keys := keys + [sigla];
        }
        todos := todos[sigla := store.saved[sigla]];
      }
      k := k + 1;
    }
    assert listing[..k] == listing;
  }

  /** Lines 307-321, corrected: the loaded lists concatenated in key order,
      which is the order of first listing. */
  method MergeCheckpoints(store: CheckpointStore, listing: seq<string>) returns (deputados: seq<Legislator>)
    requires forall c :: c in listing ==> c in store.saved || c in OUTPUT_FILES
    ensures deputados == Merged(store.saved, Distinct(PartyListing(listing)))
  {
    var todos, keys := LoadCheckpoints(store, listing);
    deputados := [];
    var j := 0;
    while j < |keys|
      invariant 0 <= j <= |keys|
      invariant deputados == Merged(store.saved, keys[..j])
    {
      MergedStep(store.saved, keys, j);
      deputados := deputados + todos[keys[j]];
      j := j + 1;
    }
    assert keys[..j] == keys;
  }

  // ---- `* 1` coercion ----

  /** A number, or JavaScript's NaN. */
  datatype Num = Num(n: nat) | NaN

  /** `+` on numbers: NaN absorbs. */
  function AddNum(a: Num, b: Num): (r: Num)
    ensures r.Num? <==> a.Num? && b.Num?
    ensures r.Num? ==> r.n == a.n + b.n
  {
    if a.NaN? || b.NaN? then NaN else Num(a.n + b.n)
  }

  /** `x * 1` on a scraped text: blank text is 0, a decimal numeral is its
      value, a missing value (`undefined`) and any other text are NaN. */
  function Coerce(text: Option<string>): Num
  {
    if text.None? then NaN
    else
      var t := Trim(text.value);
      if t == "" then Num(0)
      else if AllDigits(t) then Num(DigitsValue(t))
      else NaN
  }

  /** The numeral of `n`, surrounded by white space or not, coerces back to `n`. */
  lemma CoerceDecimal(n: nat, pre: string, post: string)
    requires forall i :: 0 <= i < |pre| ==> IsSpace(pre[i])
    requires forall i :: 0 <= i < |post| ==> IsSpace(post[i])
    ensures Coerce(Some(pre + DecimalText(n) + post)) == Num(n)
  {
    var d := DecimalText(n);
    DecimalTextValue(n);
    TrimSurrounded(pre, d, post);
  }

  /** A staff count read from a resources page always coerces to a number. */
  lemma StaffIsNumber(res: Resources)
    requires (res.staffPlanned, res.staffActive) == StaffCounts(res.staffText)
    ensures Coerce(Some(res.staffActive)).Num?
  {
    var r := StaffCounts(res.staffText);
    var a := r.1;
    assert AllDigits(a);
    assert a == [] || (!IsSpace(a[0]) && !IsSpace(a[|a| - 1]));
    TrimUnchanged(a);
  }

  // ---- parliamentary quota (lines 383-395) ----

  /** `substring(0, 4)`: the first four characters, or all of a shorter text. */
  function Prefix4(s: string): (r: string)
    ensures |r| == if |s| < 4 then |s| else 4
  {
    if |s| >= 4 then s[..4] else s
  }

  /** The sum of `valorLiquido` over a month's entries. */
  function NetSum(entries: seq<Expense>): int
  {
    if entries == [] then 0 else NetSum(entries[..|entries| - 1]) + entries[|entries| - 1].netValue
  }

  /** The sum of `valorLiquido` over all entries of all months. */
  function TotalNet(g: seq<MonthlyBatch>): int
  {
    if g == [] then 0 else TotalNet(g[..|g| - 1]) + NetSum(g[|g| - 1].entries)
  }

  /** The quota of `year`: the entries of the months whose key starts with `year`. */
  function Quota(g: seq<MonthlyBatch>, year: string): int
  {
    if g == [] then 0
    else
      var last := g[|g| - 1];
      Quota(g[..|g| - 1], year) + (if Prefix4(last.period) == year then NetSum(last.entries) else 0)
  }

  /** When every month is of 2019 or of 2020, the two yearly quotas add up to
      the whole expense history. */
  lemma {:induction false} QuotaSplit(g: seq<MonthlyBatch>)
    requires forall k :: 0 <= k < |g| ==> Prefix4(g[k].period) == "2019" || Prefix4(g[k].period) == "2020"
    ensures Quota(g, "2019") + Quota(g, "2020") == TotalNet(g)
  {
    if g != [] {
      var n := |g| - 1;
      assert forall k :: 0 <= k < n ==> g[..n][k] == g[k];
      QuotaSplit(g[..n]);
    }
  }

  /** The quota of a year no month belongs to is zero. */
  lemma {:induction false} QuotaOfOtherYear(g: seq<MonthlyBatch>, year: string)
    requires forall k :: 0 <= k < |g| ==> Prefix4(g[k].period) != year
    ensures Quota(g, year) == 0
  {
    if g != [] {
      var n := |g| - 1;
      assert forall k :: 0 <= k < n ==> g[..n][k] == g[k];
      QuotaOfOtherYear(g[..n], year);
    }
  }

  /** The months of a collected expense history are all of 2019 or of 2020. */
  lemma CollectedYears(remote: Remote, d: Legislator, id: nat)
    requires MemberOf(remote, id) == Ok(d)
    ensures forall k :: 0 <= k < |d.expenses| ==> Prefix4(d.expenses[k].period) == "2019" || Prefix4(d.expenses[k].period) == "2020"
  {
    MemberExpenses(remote, id);
    GastosPeriods(remote, id);
    ReferenceYears(id);
  }

  // ---- per-year figures (lines 326-396) ----

  /** The figures of one legislator for one year. */
  datatype YearFigures = YearFigures(
    housing: nat,
    authored: Num, reported: Num,
    committeePresence: Num, committeeAbsence: Num,
    plenaryPresence: Num, plenaryAbsence: Num,
    staff: Num, officeBudget: nat, quota: int)

  /** `justificada * 1 + naoJustificada * 1`: a number exactly when both
      cells read as numbers, and then their sum. */
  function Absences(att: Attendance): (r: Num)
    ensures r.Num? <==> Coerce(att.justified).Num? && Coerce(att.unjustified).Num?
    ensures r.Num? ==> r.n == Coerce(att.justified).n + Coerce(att.unjustified).n
  {
    AddNum(Coerce(att.justified), Coerce(att.unjustified))
  }

  /** One year's entries of `deputadoTotalizadorAno`: the housing allowance
      read as an amount, the counts coerced to numbers, absences as justified
      plus unjustified, active staff, office budget spent, and the quota of
      the months of that year. */
  function Yearly(res: Resources, act: Activity, budget: OfficeBudget, g: seq<MonthlyBatch>, year: string): YearFigures
  {
    YearFigures(
      ConverteNumberText(res.housing),
      Coerce(Some(act.authored.count)), Coerce(Some(act.reported.count)),
      Coerce(act.committee.present), Absences(act.committee),
      Coerce(act.plenary.present), Absences(act.plenary),
      Coerce(Some(res.staffActive)),
      budget.spent.value,
      Quota(g, year))
  }

  function Figures2019(d: Legislator): YearFigures {
    Yearly(d.resources2019, d.activity2019, d.budget2019, d.expenses, "2019")
  }

  function Figures2020(d: Legislator): YearFigures {
    Yearly(d.resources2020, d.activity2020, d.budget2020, d.expenses, "2020")
  }

  /** One element of `deputadoTotalizador`. */
  datatype Totalizer = Totalizer(
    id: nat, partyCode: string, stateCode: string, cpf: string, name: string,
    electoralName: string, email: string, uri: PageAddress,
    salary: nat,
    residence2019: string, residence2020: string,
    housing: nat,
    authored: Num, reported: Num,
    committeePresence: Num, committeeAbsence: Num,
    plenaryPresence: Num, plenaryAbsence: Num,
    staff2019: Num, staff2020: Num,
    officeBudget: nat,
    quota: int,
    score: int)

  /** Lines 398-434: identity fields from the profile, each total the 2019
      figure plus the 2020 figure, staff kept per year, and the score. */
  function Totalize(d: Legislator): (r: Totalizer)
    ensures r.id == d.info.id && r.salary == d.resources2020.salary
    ensures && r.partyCode == d.info.partyCode && r.stateCode == d.info.stateCode && r.cpf == d.info.cpf
            && r.name == d.info.civilName && r.electoralName == d.info.electoralName && r.email == d.info.email
            && r.uri == ProfilePage(d.info.id)
    ensures r.housing == ConverteNumberText(d.resources2019.housing) + ConverteNumberText(d.resources2020.housing)
    ensures r.officeBudget == d.budget2019.spent.value + d.budget2020.spent.value
    ensures r.quota == Quota(d.expenses, "2019") + Quota(d.expenses, "2020")
    ensures r.score == r.housing + r.quota + r.officeBudget
    ensures r.residence2019 == d.resources2019.residence && r.residence2020 == d.resources2020.residence
  {
    var a := Figures2019(d);
    var b := Figures2020(d);
    var housing := a.housing + b.housing;
    var officeBudget := a.officeBudget + b.officeBudget;
    var quota := a.quota + b.quota;
    Totalizer(
      d.info.id, d.info.partyCode, d.info.stateCode, d.info.cpf, d.info.civilName,
      d.info.electoralName, d.info.email, ProfilePage(d.info.id),
      d.resources2020.salary,
      d.resources2019.residence, d.resources2020.residence,
      housing,
      AddNum(a.authored, b.authored), AddNum(a.reported, b.reported),
      AddNum(a.committeePresence, b.committeePresence), AddNum(a.committeeAbsence, b.committeeAbsence),
      AddNum(a.plenaryPresence, b.plenaryPresence), AddNum(a.plenaryAbsence, b.plenaryAbsence),
      a.staff, b.staff,
      officeBudget,
      quota,
      housing + quota + officeBudget)
  }

  /** The count fields (lines 416-425): authored, reported and both presence
      totals are the 2019 coercion plus the 2020 one, NaN absorbing, and each
      year's active staff is kept apart. */
  lemma TotalizeCounts(d: Legislator)
    ensures var r := Totalize(d);
            && r.authored == AddNum(Coerce(Some(d.activity2019.authored.count)), Coerce(Some(d.activity2020.authored.count)))
            && r.reported == AddNum(Coerce(Some(d.activity2019.reported.count)), Coerce(Some(d.activity2020.reported.count)))
            && r.committeePresence == AddNum(Coerce(d.activity2019.committee.present), Coerce(d.activity2020.committee.present))
            && r.plenaryPresence == AddNum(Coerce(d.activity2019.plenary.present), Coerce(d.activity2020.plenary.present))
            && r.staff2019 == Coerce(Some(d.resources2019.staffActive))
            && r.staff2020 == Coerce(Some(d.resources2020.staffActive))
  {
  }

  /** The absence totals are the absences of 2019 plus those of 2020, a
      number only when both years' are. */
  lemma AbsenceTotals(d: Legislator)
    ensures var t := Totalize(d).plenaryAbsence;
            var a, b := Absences(d.activity2019.plenary), Absences(d.activity2020.plenary);
            && (t.Num? <==> a.Num? && b.Num?)
            && (t.Num? ==> t.n == a.n + b.n)
    ensures var t := Totalize(d).committeeAbsence;
            var a, b := Absences(d.activity2019.committee), Absences(d.activity2020.committee);
            && (t.Num? <==> a.Num? && b.Num?)
            && (t.Num? ==> t.n == a.n + b.n)
  {
    var y19, y20 := Figures2019(d), Figures2020(d);
    assert y19.plenaryAbsence == Absences(d.activity2019.plenary);
    assert y20.plenaryAbsence == Absences(d.activity2020.plenary);
    assert y19.committeeAbsence == Absences(d.activity2019.committee);
    assert y20.committeeAbsence == Absences(d.activity2020.committee);
    assert Totalize(d).plenaryAbsence == AddNum(y19.plenaryAbsence, y20.plenaryAbsence);
    assert Totalize(d).committeeAbsence == AddNum(y19.committeeAbsence, y20.committeeAbsence);
  }

  /** The totalizer list, one element per merged record, in the same order. */
  function Totals(ds: seq<Legislator>): (r: seq<Totalizer>)
    ensures |r| == |ds|
    ensures forall k :: 0 <= k < |ds| ==> r[k].id == ds[k].info.id && r[k] == Totalize(ds[k])
  {
    seq(|ds|, k requires 0 <= k < |ds| => Totalize(ds[k]))
  }

  /** The score from the raw record: both housing allowances, the whole
      expense history and both office-budget amounts, when every month is of
      2019 or of 2020. */
  lemma ScoreFromRecord(d: Legislator)
    requires forall k :: 0 <= k < |d.expenses| ==> Prefix4(d.expenses[k].period) == "2019" || Prefix4(d.expenses[k].period) == "2020"
    ensures Totalize(d).quota == TotalNet(d.expenses)
    ensures Totalize(d).score
            == ConverteNumberText(d.resources2019.housing) + ConverteNumberText(d.resources2020.housing)
               + TotalNet(d.expenses)
               + d.budget2019.spent.value + d.budget2020.spent.value
  {
    QuotaSplit(d.expenses);
    ScoreOf(d, ConverteNumberText(d.resources2019.housing) + ConverteNumberText(d.resources2020.housing),
            TotalNet(d.expenses), d.budget2019.spent.value + d.budget2020.spent.value);
  }

  /** For every collected legislator, the quota total is the whole expense
      history and the score is housing plus quota plus office budget. */
  lemma CollectedScore(remote: Remote, id: nat)
    requires MemberOf(remote, id).Ok?
    ensures var d := MemberOf(remote, id).value;
            && Totalize(d).quota == TotalNet(d.expenses)
            && Totalize(d).score == Totalize(d).housing + TotalNet(d.expenses) + Totalize(d).officeBudget
  {
    var d := MemberOf(remote, id).value;
    CollectedYears(remote, d, id);
    ScoreFromRecord(d);
  }

  /** The housing total is read from the two allowance texts; a text without
      digits, such as the missing-node sentinel, adds nothing. */
  lemma HousingTotal(d: Legislator)
    ensures Totalize(d).housing
            == ConvertNumber(d.resources2019.housing) + ConvertNumber(d.resources2020.housing)
    ensures NoDigits(d.resources2019.housing) && NoDigits(d.resources2020.housing) ==> Totalize(d).housing == 0
  {
  }

  /** Twelve months of 2019 with one entry of `value` each: the 2019 quota is
      twelve times `value`. */
  lemma {:induction false} MonthlyQuota(g: seq<MonthlyBatch>, value: int, n: nat)
    requires n <= |g|
    requires forall k :: 0 <= k < |g| ==> Prefix4(g[k].period) == "2019" && |g[k].entries| == 1 && g[k].entries[0].netValue == value
    ensures Quota(g[..n], "2019") == n * value
  {
    if n > 0 {
      assert g[..n][..n - 1] == g[..n - 1];
      MonthlyQuota(g, value, n - 1);
      var e := g[n - 1].entries;
      assert e[..0] == [];
      assert NetSum(e) == value;
      assert g[..n][n - 1] == g[n - 1];
      assert Quota(g[..n], "2019") == Quota(g[..n - 1], "2019") + NetSum(e);
    }
  }

  /** Twelve months of 2019 with one entry of 50.00 each: quota 600.00 in
      2019 and none in 2020. */
  lemma ScenarioQuota(g: seq<MonthlyBatch>)
    requires |g| == 12
    requires forall k :: 0 <= k < 12 ==> Prefix4(g[k].period) == "2019"
    requires forall k :: 0 <= k < 12 ==> |g[k].entries| == 1 && g[k].entries[0].netValue == 5000
    ensures Quota(g, "2019") == 60000 && Quota(g, "2020") == 0
  {
    MonthlyQuota(g, 5000, 12);
    assert g[..12] == g;
    QuotaOfOtherYear(g, "2020");
  }

  /** Example: office budget spent 1500.00, housing allowance 200.00, and
      the twelve months of 2019 (`PeriodKey(2019, 1)` to `PeriodKey(2019, 12)`)
      with one entry of 50.00 each: quota 600.00, score 2300.00. */
  lemma ScoreScenario(d: Legislator)
    requires d.budget2019.spent.value + d.budget2020.spent.value == 150000
    requires ConverteNumberText(d.resources2019.housing) + ConverteNumberText(d.resources2020.housing) == 20000
    requires |d.expenses| == 12
    requires forall k :: 0 <= k < 12 ==> d.expenses[k].period == PeriodKey(2019, k + 1)
    requires forall k :: 0 <= k < 12 ==> |d.expenses[k].entries| == 1 && d.expenses[k].entries[0].netValue == 5000
    ensures Totalize(d).quota == 60000
    ensures Totalize(d).score == 230000
  {
    ScenarioYears(d.expenses);
    ScenarioQuota(d.expenses);
    ScoreOf(d, 20000, 60000, 150000);
  }

  /** The quota and the score from the three summed amounts of a record. */
  lemma ScoreOf(d: Legislator, housing: nat, quota: int, budget: nat)
    requires ConverteNumberText(d.resources2019.housing) + ConverteNumberText(d.resources2020.housing) == housing
    requires Quota(d.expenses, "2019") + Quota(d.expenses, "2020") == quota
    requires d.budget2019.spent.value + d.budget2020.spent.value == budget
    ensures Totalize(d).quota == quota && Totalize(d).score == housing + quota + budget
  {
  }

  /** The months keyed `PeriodKey(2019, 1)` to `PeriodKey(2019, 12)` are of 2019. */
  lemma ScenarioYears(g: seq<MonthlyBatch>)
    requires |g| == 12
    requires forall k :: 0 <= k < 12 ==> g[k].period == PeriodKey(2019, k + 1)
    ensures forall k :: 0 <= k < 12 ==> Prefix4(g[k].period) == "2019"
  {
    YearTexts();
    forall k | 0 <= k < 12 ensures Prefix4(g[k].period) == "2019" {
      PeriodKeyYear(2019, k + 1);
    }
  }
}
