/** The party batch of `getPartidos`: the party codes without a checkpoint
    are collected one after the other, and each party's records are written
    to its checkpoint once all its members have been collected. */
module Checkpoints {
  import opened Wrappers
  import opened Records
  import opened Sources
  import opened Collect

  /** Checkpoint contents by party code. */
  type Saved = map<string, seq<Legislator>>

  /** The names, without `.json`, of the files `run` itself writes into the
      checkpoint directory (lines 315 and 473-481). */
  const OUTPUT_FILES: set<string> := {"TODOS", "TOTALIZADORES", "TOTALIZADORES_CONTAS"}

  /** The checkpoint directory: one saved list of records per party code,
      and which of `run`'s own output files are there too. */
  class CheckpointStore {
    var saved: Saved
    var outputs: set<string>

    constructor (initial: Saved, written: set<string>)
      ensures saved == initial && outputs == written
    {
      saved := initial;
      outputs := written;
    }

    /** `writeFileSync` of one party checkpoint (line 295). */
    method Put(code: string, records: seq<Legislator>)
      modifies this
      ensures saved == old(saved)[code := records]
      ensures outputs == old(outputs)
    {
      saved := saved[code := records];
    }

    /** `writeFileSync` of `TODOS.json` and of the two reports (lines 315
        and 473-481); the party checkpoints are untouched. */
    method PutOutputs()
      modifies this
      ensures saved == old(saved)
      ensures outputs == old(outputs) + OUTPUT_FILES
    {
      outputs := outputs + OUTPUT_FILES;
    }
  }

  /** `siglasNaoBaixadas`: the listed codes without a checkpoint, in listing order. */
  function Missing(codes: seq<string>, present: set<string>): (r: seq<string>)
    ensures |r| <= |codes|
    ensures forall c :: c in r <==> c in codes && c !in present
  {
    if codes == [] then []
    else
      var last := codes[|codes| - 1];
      var done := Missing(codes[..|codes| - 1], present);
      if last in present then done else done + [last]
  }

  /** The filter keeps the listing order: filtering one list after another
      gives the filtered first list followed by the filtered second. */
  lemma {:induction false} MissingConcat(a: seq<string>, b: seq<string>, present: set<string>)
    ensures Missing(a + b, present) == Missing(a, present) + Missing(b, present)
  {
    if b != [] {
      var n := |b| - 1;
      assert (a + b)[..|a + b| - 1] == a + b[..n];
      MissingConcat(a, b[..n], present);
    } else {
      assert a + b == a;
    }
  }

  /** Nothing is missing when every listed code is present. */
  lemma {:induction false} MissingNone(codes: seq<string>, present: set<string>)
    requires forall c :: c in codes ==> c in present
    ensures Missing(codes, present) == []
  {
    if codes != [] {
      var n := |codes| - 1;
      assert forall c :: c in codes[..n] ==> c in codes;
      MissingNone(codes[..n], present);
    }
  }

  /** What a batch leaves behind: the checkpoints, and the error that ended it early, if any. */
  datatype Outcome = Outcome(saved: Saved, failure: Option<Error>)

  /** Collection of one party's records, as a function of its code. */
  function PartyFetcher(remote: Remote, roster: seq<RosterEntry>): string -> Result<seq<Legislator>>
  {
    (code: string) => PartyOf(remote, PartyMembers(roster, code))
  }

  /** The loop of lines 292-296 over `pending`: each party in turn is
      collected and then written; the first party that fails ends the loop,
      and nothing of it is written. */
  function Download(saved: Saved, fetch: string -> Result<seq<Legislator>>, pending: seq<string>): Outcome
  {
    if pending == [] then Outcome(saved, None)
    else
      var prev := Download(saved, fetch, pending[..|pending| - 1]);
      if prev.failure.Some? then prev
      else
        var code := pending[|pending| - 1];
        var party := fetch(code);
        if party.Err? then Outcome(prev.saved, Some(party.error))
        else Outcome(prev.saved[code := party.value], None)
  }

  /** `getPartidos`: the party listing, then the roster, then the codes
      without a checkpoint. */
  function PartiesRun(saved: Saved, remote: Remote): Outcome
  {
    if remote.parties.Err? then Outcome(saved, Some(remote.parties.error))
    else if remote.roster.Err? then Outcome(saved, Some(remote.roster.error))
    else Download(saved, PartyFetcher(remote, remote.roster.value), Missing(remote.parties.value, saved.Keys))
  }

  /** A checkpoint not in `pending` keeps its contents; every checkpoint there
      afterwards either was there before or is the full record list of a
      pending party. */
  lemma {:induction false} DownloadFrame(saved: Saved, fetch: string -> Result<seq<Legislator>>, pending: seq<string>)
    ensures var r := Download(saved, fetch, pending);
            && (forall c :: c in saved && c !in pending ==> c in r.saved && r.saved[c] == saved[c])
            && (forall c :: c in r.saved ==>
                  (c in saved && r.saved[c] == saved[c]) ||
                  (c in pending && fetch(c) == Ok(r.saved[c])))
  {
    if pending != [] {
      var n := |pending| - 1;
      DownloadFrame(saved, fetch, pending[..n]);
      var prev := Download(saved, fetch, pending[..n]);
      var r := Download(saved, fetch, pending);
      var code := pending[n];
      assert pending == pending[..n] + [code];
      if prev.failure.None? && fetch(code).Ok? {
        assert r.saved == prev.saved[code := fetch(code).value];
        forall c | c in r.saved
          ensures (c in saved && r.saved[c] == saved[c]) || (c in pending && fetch(c) == Ok(r.saved[c]))
        {
          if c != code {
            assert c in prev.saved && r.saved[c] == prev.saved[c];
          }
        }
      } else {
        assert r.saved == prev.saved;
      }
    }
  }

  /** The batch completes exactly when every pending party is collected, and
      then every pending party has its checkpoint. */
  lemma {:induction false} DownloadComplete(saved: Saved, fetch: string -> Result<seq<Legislator>>, pending: seq<string>)
    ensures var r := Download(saved, fetch, pending);
            && (r.failure.None? <==> forall k :: 0 <= k < |pending| ==> fetch(pending[k]).Ok?)
            && (r.failure.None? ==> forall k :: 0 <= k < |pending| ==>
                  pending[k] in r.saved && Ok(r.saved[pending[k]]) == fetch(pending[k]))
  {
    if pending != [] {
      var n := |pending| - 1;
      DownloadComplete(saved, fetch, pending[..n]);
      var prev := Download(saved, fetch, pending[..n]);
      if prev.failure.Some? {
        var k :| 0 <= k < n && fetch(pending[..n][k]).Err?;
        assert pending[..n][k] == pending[k];
      }
    }
  }

  /** When the party at `k` is the first to fail, the batch stops with its
      error and holds exactly what the parties before it left. */
  lemma {:induction false} DownloadStopsAt(saved: Saved, fetch: string -> Result<seq<Legislator>>, pending: seq<string>, k: nat)
    requires k < |pending| && fetch(pending[k]).Err?
    requires forall j :: 0 <= j < k ==> fetch(pending[j]).Ok?
    ensures Download(saved, fetch, pending)
            == Outcome(Download(saved, fetch, pending[..k]).saved, Some(fetch(pending[k]).error))
  {
    var n := |pending| - 1;
    if k < n {
      DownloadStopsAt(saved, fetch, pending[..n], k);
      assert pending[..n][..k] == pending[..k];
    } else {
      assert pending[..k] == pending[..n];
      DownloadComplete(saved, fetch, pending[..n]);
    }
  }

  /** A party that fails gets no checkpoint from this batch when it had none
      before and is listed once. */
  lemma FailedPartyUnsaved(saved: Saved, fetch: string -> Result<seq<Legislator>>, pending: seq<string>, k: nat)
    requires k < |pending| && fetch(pending[k]).Err?
    requires forall j :: 0 <= j < k ==> fetch(pending[j]).Ok?
    requires pending[k] !in saved && pending[k] !in pending[..k]
    ensures pending[k] !in Download(saved, fetch, pending).saved
  {
    DownloadStopsAt(saved, fetch, pending, k);
    DownloadFrame(saved, fetch, pending[..k]);
  }

  /** Checkpointed parties are never collected again nor rewritten, and every
      new checkpoint is a listed code holding its party's records. */
  lemma PartiesRunFrame(saved: Saved, remote: Remote)
    ensures var r := PartiesRun(saved, remote);
            && (forall c :: c in saved ==> c in r.saved && r.saved[c] == saved[c])
            && (forall c :: c in r.saved && c !in saved ==>
                  && remote.parties.Ok? && remote.roster.Ok? && c in remote.parties.value
                  && PartyFetcher(remote, remote.roster.value)(c) == Ok(r.saved[c]))
  {
    if remote.parties.Ok? && remote.roster.Ok? {
      DownloadFrame(saved, PartyFetcher(remote, remote.roster.value), Missing(remote.parties.value, saved.Keys));
    }
  }

  /** After a complete run every listed code has a checkpoint. */
  lemma PartiesRunComplete(saved: Saved, remote: Remote)
    requires PartiesRun(saved, remote).failure.None?
    ensures remote.parties.Ok?
    ensures forall c :: c in remote.parties.value ==> c in PartiesRun(saved, remote).saved
  {
    var pending := Missing(remote.parties.value, saved.Keys);
    DownloadComplete(saved, PartyFetcher(remote, remote.roster.value), pending);
    DownloadFrame(saved, PartyFetcher(remote, remote.roster.value), pending);
    forall c | c in remote.parties.value ensures c in PartiesRun(saved, remote).saved {
      if c !in saved {
        var k :| 0 <= k < |pending| && pending[k] == c;
      }
    }
  }

  /** Re-running after a complete run collects nothing and changes nothing. */
  lemma RerunIsNoop(saved: Saved, remote: Remote)
    requires PartiesRun(saved, remote).failure.None?
    ensures var r := PartiesRun(saved, remote);
            PartiesRun(r.saved, remote) == Outcome(r.saved, None)
  {
    var r := PartiesRun(saved, remote);
    PartiesRunComplete(saved, remote);
    MissingNone(remote.parties.value, r.saved.Keys);
  }

  /** When every party still missing can now be collected, the run
      completes; the checkpoints are then exactly the old ones and the listed
      codes. */
  lemma ResumeCompletes(saved: Saved, remote: Remote)
    requires remote.parties.Ok? && remote.roster.Ok?
    requires forall c :: c in remote.parties.value && c !in saved ==> PartyFetcher(remote, remote.roster.value)(c).Ok?
    ensures PartiesRun(saved, remote).failure.None?
    ensures forall c :: c in PartiesRun(saved, remote).saved <==> c in saved || c in remote.parties.value
  {
    var pending := Missing(remote.parties.value, saved.Keys);
    assert forall k :: 0 <= k < |pending| ==> pending[k] in pending;
    DownloadComplete(saved, PartyFetcher(remote, remote.roster.value), pending);
    PartiesRunComplete(saved, remote);
    PartiesRunFrame(saved, remote);
  }

  /** Example: with A and B checkpointed, only C is collected. */
  lemma ResumeScenario(saved: Saved)
    requires saved.Keys == {"A", "B"}
    ensures Missing(["A", "B", "C"], saved.Keys) == ["C"]
  {
    var codes := ["A", "B", "C"];
    assert codes[..2] == ["A", "B"] && codes[..2][..1] == ["A"] && codes[..2][..1][..0] == [];
    assert Missing(["A"], saved.Keys) == [];
    assert Missing(["A", "B"], saved.Keys) == [];
  }

  /** One more party of the batch: written when it is collected, otherwise
      the batch ends with its error. */
  lemma DownloadStep(saved: Saved, fetch: string -> Result<seq<Legislator>>, pending: seq<string>, i: nat, now: Saved)
    requires i < |pending| && Download(saved, fetch, pending[..i]) == Outcome(now, None)
    ensures var party := fetch(pending[i]);
            && (party.Ok? ==> Download(saved, fetch, pending[..i + 1]) == Outcome(now[pending[i] := party.value], None))
            && (party.Err? ==> Download(saved, fetch, pending) == Outcome(now, Some(party.error)))
  {
    assert pending[..i + 1][..i] == pending[..i];
    if fetch(pending[i]).Err? {
      DownloadComplete(saved, fetch, pending[..i]);
      assert forall j :: 0 <= j < i ==> pending[..i][j] == pending[j];
      DownloadStopsAt(saved, fetch, pending, i);
    }
  }

  /** `getPartidos` on the checkpoint store. */
  method GetPartidos(store: CheckpointStore, remote: Remote) returns (failure: Option<Error>)
    modifies store
    ensures Outcome(store.saved, failure) == PartiesRun(old(store.saved), remote)
    ensures store.outputs == old(store.outputs)
  {
    if remote.parties.Err? {
      return Some(remote.parties.error);
    }
    var siglas := remote.parties.value;
    if remote.roster.Err? {
      return Some(remote.roster.error);
    }
    var deputados := remote.roster.value;
    var siglasNaoBaixadas := Missing(siglas, store.saved.Keys);
    ghost var initial := store.saved;
    var i := 0;
    while i < |siglasNaoBaixadas|
      invariant 0 <= i <= |siglasNaoBaixadas|
      invariant Download(initial, PartyFetcher(remote, deputados), siglasNaoBaixadas[..i]) == Outcome(store.saved, None)
      invariant store.outputs == old(store.outputs)
    {
      var sigla := siglasNaoBaixadas[i];
      var deputadosPartido := CollectParty(remote, deputados, sigla);
      assert deputadosPartido == PartyFetcher(remote, deputados)(sigla);
      DownloadStep(initial, PartyFetcher(remote, deputados), siglasNaoBaixadas, i, store.saved);
      if deputadosPartido.Err? {
        return Some(deputadosPartido.error);
      }
      store.Put(sigla, deputadosPartido.value);
      i := i + 1;
    }
    assert siglasNaoBaixadas[..i] == siglasNaoBaixadas;
    failure := None;
  }
}
