/** `run`: the party batch, the merge of the checkpoints, the totalizer list
    sorted by score, and the expense breakdown, in that order. */
module Pipeline {
  import opened Wrappers
  import opened Records
  import opened Sources
  import opened Checkpoints
  import opened Aggregate
  import opened Ranking
  import opened Breakdown

  /** What `run` writes out: the ranked totalizer list and the breakdown records. */
  datatype Report = Report(ranked: seq<Totalizer>, accounts: seq<Account>)

  /** The report of the merged records. */
  function ReportOf(ds: seq<Legislator>): Report
  {
    BreakdownValues(ds);
    Report(Ranked(Totals(ds)), Values(Breakdowns(ds)))
  }

  /** The totalizer list ranked in place (lines 398-446). */
  method RankTotals(ds: seq<Legislator>) returns (ranked: seq<Totalizer>)
    ensures ranked == Ranked(Totals(ds))
  {
    var ts := Totals(ds);
    var a := new Totalizer[|ts|](k requires 0 <= k < |ts| => ts[k]);
    assert a[..] == ts;
    RankInPlace(a);
    ranked := a[..];
  }

  /** Lines 305-481: the batch; when it fails, `run` stops with its error;
      otherwise the party checkpoints among the files of `listing` (the
      directory listing taken after the batch) are merged, totalized, ranked
      and broken down, and `run`'s output files are written. */
  method Run(store: CheckpointStore, remote: Remote, listing: seq<string>) returns (r: Result<Report>)
    requires store.outputs <= OUTPUT_FILES
    requires forall c :: c in listing <==> c in PartiesRun(store.saved, remote).saved || c in store.outputs
    modifies store
    ensures store.saved == PartiesRun(old(store.saved), remote).saved
    ensures r.Err? <==> PartiesRun(old(store.saved), remote).failure.Some?
    ensures r.Err? ==> r.error == PartiesRun(old(store.saved), remote).failure.value
    ensures r.Err? ==> store.outputs == old(store.outputs)
    ensures r.Ok? ==> store.outputs == old(store.outputs) + OUTPUT_FILES
    ensures r.Ok? ==> r.value == ReportOf(Merged(store.saved, Distinct(PartyListing(listing))))
    ensures r.Ok? ==> forall d :: d in Merged(store.saved, Distinct(PartyListing(listing))) <==>
                                  exists c :: c in store.saved && c !in OUTPUT_FILES && d in store.saved[c]
  {
    var failure := GetPartidos(store, remote);
    if failure.Some? {
      return Err(failure.value);
    }
    var deputados := MergeCheckpoints(store, listing);
    forall d: Legislator
      ensures d in deputados <==> exists c :: c in store.saved && c !in OUTPUT_FILES && d in store.saved[c]
    {
      MergedParties(store.saved, listing, d);
    }
    var ranked := RankTotals(deputados);
    var order, accounts := BucketExpenses(deputados);
    BreakdownValues(deputados);
    store.PutOutputs();
    r := Ok(Report(ranked, Values(Ledger(order, accounts))));
  }

  /** The report ranks every merged record by score, stably, and holds one
      breakdown per legislator with expenses whose categories add up to that
      legislator's net expenses. */
  lemma ReportFacts(ds: seq<Legislator>)
    ensures var rep := ReportOf(ds);
            && SortedByScore(rep.ranked)
            && multiset(rep.ranked) == multiset(Totals(ds))
            && (forall v :: WithScore(rep.ranked, v) == WithScore(Totals(ds), v))
            && (forall i :: 0 <= i < |rep.accounts| ==>
                  TotalsSum(rep.accounts[i].totals) == NetFor(ds, rep.accounts[i].header.id))
            && (forall i, j :: 0 <= i < j < |rep.accounts| ==>
                  rep.accounts[i].header.id != rep.accounts[j].header.id)
  {
    var ts := Totals(ds);
    RankedSorted(ts);
    RankedPermutation(ts);
    forall v | true ensures WithScore(Ranked(ts), v) == WithScore(ts, v) {
      RankedStable(ts, v);
    }
    BreakdownValues(ds);
  }
}
