// What blocks a job when no codes come from elsewhere: SEQUENTIAL numbering
// starts at 1 for every job of a GTIN and batch, and only the job that writes
// the first code of such a series can go on.
module CodeJobsSeries {
  import opened Wrappers
  import opened Gs1CheckDigit
  import opened Gs1Path
  import opened CodeJobs
  import opened CodeJobsInvariant
  import opened CodeJobsCodes
  import opened CodeJobsTheorems
  import opened CodeJobsExact

  predicate OwnRowsOnly(t: Tenant) {
    forall code {:trigger t.rows[code]} :: code in t.rows ==> t.rows[code].Made?
  }

  // The first code of the job has a row.
  predicate FirstTaken(config: Config, t: Tenant, id: Id)
    requires id in t.jobs
  {
    Exists(config, t, id, t.jobs[id], 0)
  }

  function FirstOwner(config: Config, t: Tenant, id: Id): Owner
    requires id in t.jobs && FirstTaken(config, t, id)
  {
    t.rows[CodeAt(config, id, t.jobs[id], 0).value]
  }

  // Another job of the same series has written the first code of this one.
  predicate Overtaken(config: Config, t: Tenant, id: Id)
    requires id in t.jobs
  {
    && FirstTaken(config, t, id) && FirstOwner(config, t, id).Made?
    && var b := FirstOwner(config, t, id).job;
       b in t.jobs && b != id && SameSeries(t.jobs[b], t.jobs[id])
  }

  lemma SeriesShareCodes(config: Config, a: Id, x: Job, b: Id, y: Job, k: nat)
    requires SameSeries(x, y)
    ensures CodeAt(config, a, x, k) == CodeAt(config, b, y, k)
  {
    hide ItemCode, SequentialSerial, GtinForDigitalLink, SameGtin;
    SameGtinSameKey(x.gtin, y.gtin);
  }

  /******* Overtaken jobs *******/

  // In every run, codes from elsewhere included: a job whose first code is
  // someone else's is blocked.
  lemma FirstLostIsBlocked(config: Config, commands: seq<Command>, id: Id)
    requires Hash(config, {id}) && id in Run(config, EMPTY, commands).jobs
    requires FirstTaken(config, Run(config, EMPTY, commands), id) && FirstOwner(config, Run(config, EMPTY, commands), id) != Made(id)
    ensures Blocked(config, Run(config, EMPTY, commands), id)
  {
    hide Run, Hash, CodeAt, Inv, Exists;
    var t := Run(config, EMPTY, commands);
    EmptyInv();
    RunKeeps(config, EMPTY, commands);
    InvOfJob(t, id);
    if !Blocked(config, t, id) {
      CleanUnlessBlocked(config, commands, id);
      if t.jobs[id].generated > 0 { CleanOwnsFirst(config, t, id); }
      assert false;
    }
  }

  lemma CleanOwnsFirst(config: Config, t: Tenant, id: Id)
    requires Inv(t) && id in t.jobs && Clean(config, t, id) && t.jobs[id].generated > 0
    ensures FirstTaken(config, t, id) && FirstOwner(config, t, id) == Made(id)
  {
    hide CodeAt;
    assert Counted(t, id);
  }

  // Nobody ever gives a row away.
  lemma RowsKept(config: Config, t: Tenant, c: Command, code: string)
    requires code in t.rows
    ensures code in Step(config, t, c).rows && Step(config, t, c).rows[code] == t.rows[code]
  {
    if c.Commit? && c.worker in t.taken && !Unfit(t.taken[c.worker].job) {
      var id, job := t.taken[c.worker].id, t.taken[c.worker].job;
      var codes := CodesFrom(config, id, job, job.generated, Chunk(job));
      if codes.Success? { InsertedAreNew(t.rows, codes.value); }
    }
    hide Unfit, CodesFrom, Inserted, IsValidGs1X, IsNumber, Locked;
  }

  // What a job is made of, series included, is fixed when it is created; a
  // pallet job gets its references later.
  lemma StepKeepsSeries(config: Config, t: Tenant, c: Command, id: Id)
    requires Inv(t) && id in t.jobs
    ensures var t' := Step(config, t, c);
      && id in t'.jobs && t'.jobs[id].scheme == t.jobs[id].scheme && t'.jobs[id].rule == t.jobs[id].rule
      && t'.jobs[id].gtin == t.jobs[id].gtin && t'.jobs[id].lot == t.jobs[id].lot
      && t'.jobs[id].quantity == t.jobs[id].quantity
      && (t'.jobs[id].sscc == t.jobs[id].sscc || (t.jobs[id].scheme == Sscc && t.jobs[id].sscc.None?))
  {
    InvOfJob(t, id);
    if c.Commit? && c.worker in t.taken {
      CommitKeepsSeries(config, t, c.worker, id);
      CommitIs(config, t, c.worker);
      hide Inv, Step, RunChunk;
    } else {
      hide Inv, IsValidGs1X, IsNumber, Locked, RunChunk;
    }
  }

  lemma CommitKeepsSeries(config: Config, t: Tenant, w: Id, id: Id)
    requires Inv(t) && id in t.jobs && w in t.taken
    ensures id in RunChunk(config, t, w).jobs && SameCodes(RunChunk(config, t, w).jobs[id], t.jobs[id])
  {
    HeldNow(t, w);
    hide Inv, Unfit, CodesFrom, Inserted, WithRows;
  }

  predicate FirstLost(config: Config, t: Tenant, id: Id)
    requires id in t.jobs
  {
    FirstTaken(config, t, id) && FirstOwner(config, t, id) != Made(id)
  }

  lemma FirstLostStep(config: Config, t: Tenant, c: Command, id: Id)
    requires Inv(t) && id in t.jobs && FirstLost(config, t, id)
    ensures id in Step(config, t, c).jobs && FirstLost(config, Step(config, t, c), id)
  {
    hide Inv, Step;
    StepKeepsSeries(config, t, c, id);
    SameCodesSameCode(config, id, t.jobs[id], Step(config, t, c).jobs[id], 0);
    RowsKept(config, t, c, CodeAt(config, id, t.jobs[id], 0).value);
  }

  lemma {:induction false} FirstLostForever(config: Config, t: Tenant, further: seq<Command>, id: Id)
    requires Inv(t) && id in t.jobs && FirstLost(config, t, id)
    ensures id in Run(config, t, further).jobs && FirstLost(config, Run(config, t, further), id)
    decreases |further|
  {
    hide Inv, Step, FirstLost;
    if further != [] {
      var before := further[..|further| - 1];
      FirstLostForever(config, t, before, id);
      RunKeeps(config, t, before);
      FirstLostStep(config, Run(config, t, before), further[|further| - 1], id);
    }
  }

  // It never completes, whatever happens afterwards and whatever the hash is.
  lemma OvertakenNeverFinishes(config: Config, commands: seq<Command>, further: seq<Command>, id: Id)
    requires id in Run(config, EMPTY, commands).jobs && FirstLost(config, Run(config, EMPTY, commands), id)
    ensures var t := Run(config, EMPTY, commands + further); id in t.jobs && t.jobs[id].status != Completed
  {
    hide Run, Inv, Exists, CodeAt;
    var t := Run(config, EMPTY, commands);
    EmptyInv();
    RunKeeps(config, EMPTY, commands);
    FirstLostForever(config, t, further, id);
    RunJoins(config, EMPTY, commands, further);
    var t' := Run(config, EMPTY, commands + further);
    if t'.jobs[id].status == Completed {
      RunKeeps(config, EMPTY, commands + further);
      InvOfJob(t', id);
      FirstCode(config, t', id);
      CompletedRowsAreAll(config, commands + further, id, CodeAt(config, id, t'.jobs[id], 0).value);
      assert false;
    }
  }

  lemma FirstCode(config: Config, t: Tenant, id: Id)
    requires id in t.jobs && FirstTaken(config, t, id)
    ensures CodeAt(config, id, t.jobs[id], 0).Success? && CodeAt(config, id, t.jobs[id], 0).value in t.rows
  {
  }

  /******* Without codes from elsewhere *******/

  predicate OthersIdle(t: Tenant, id: Id)
    requires id in t.jobs
  {
    forall b {:trigger t.jobs[b]} :: b in t.jobs && b != id && SameSeries(t.jobs[b], t.jobs[id]) ==> t.jobs[b].generated == 0
  }

  // A job with rows found or wrote its first code.
  predicate FirstOk(config: Config, t: Tenant, id: Id)
    requires id in t.jobs
  {
    t.jobs[id].generated > 0 ==> FirstTaken(config, t, id)
  }

  // The job that wrote the first code has finished, or has at least one whole
  // chunk and no rival has a row.
  predicate LeadOk(config: Config, t: Tenant, id: Id)
    requires id in t.jobs
  {
    FirstTaken(config, t, id) && FirstOwner(config, t, id) == Made(id) ==>
      || t.jobs[id].generated == t.jobs[id].quantity
      || (Clean(config, t, id) && t.jobs[id].generated >= CHUNK && OthersIdle(t, id))
  }

  predicate SeriesOk(config: Config, t: Tenant, id: Id)
    requires id in t.jobs
  {
    Coded(config, t, id) && FirstOk(config, t, id) && LeadOk(config, t, id)
  }

  predicate SeriesInv(config: Config, t: Tenant) {
    OwnRowsOnly(t) && forall id {:trigger SeriesOk(config, t, id)} :: id in t.jobs ==> SeriesOk(config, t, id)
  }

  lemma SeriesFacts(config: Config, t: Tenant, id: Id)
    requires SeriesInv(config, t) && id in t.jobs
    ensures Coded(config, t, id) && FirstOk(config, t, id) && LeadOk(config, t, id)
  {
    assert SeriesOk(config, t, id);
  }

  // The row at an index of a job is that of the same index of the job itself
  // or of one of its series.
  lemma OwnerOf(config: Config, t: Tenant, id: Id, k: nat) returns (b: Id)
    requires Hash(config, t.jobs.Keys) && Inv(t) && SeriesInv(config, t)
    requires id in t.jobs && k < t.jobs[id].quantity && Exists(config, t, id, t.jobs[id], k)
    ensures b in t.jobs && t.rows[CodeAt(config, id, t.jobs[id], k).value] == Made(b) && t.jobs[b].generated > 0
    ensures CodeAt(config, id, t.jobs[id], k).value in t.jobs[b].issued
    ensures b != id ==> SameSeries(t.jobs[b], t.jobs[id])
  {
    hide Inv, CodeAt, Hash, SameSeries, Apart, SeriesOk;
    var code := CodeAt(config, id, t.jobs[id], k).value;
    assert t.rows[code].Made?;
    b := t.rows[code].job;
    RowIsIssued(t, code);
    SeriesFacts(config, t, b);
    assert IndexOf(config, b, t.jobs[b], code);
    var m :| 0 <= m < t.jobs[b].quantity && CodeAt(config, b, t.jobs[b], m) == Success(code);
    InvOfJob(t, id);
    InvOfJob(t, b);
    if b != id {
      Pairwise(t, b, id);
      HashOfFewer(config, t.jobs.Keys, {b, id});
      CodesDiffer(config, b, t.jobs[b], m, id, t.jobs[id], k);
    }
  }

  lemma CleanAndAlone(config: Config, t: Tenant, id: Id)
    requires Hash(config, t.jobs.Keys) && Inv(t) && SeriesInv(config, t)
    requires id in t.jobs && Clean(config, t, id) && OthersIdle(t, id)
    ensures !Blocked(config, t, id)
  {
    hide Inv, CodeAt, Hash, SameSeries, SeriesInv;
    InvOfJob(t, id);
    if Blocked(config, t, id) {
      var k :| t.jobs[id].generated <= k < t.jobs[id].quantity && Exists(config, t, id, t.jobs[id], k);
      var b := OwnerOf(config, t, id, k);
      assert b == id;
      var m :| 0 <= m < |t.jobs[id].issued| && t.jobs[id].issued[m] == CodeAt(config, id, t.jobs[id], k).value;
      HashOfFewer(config, t.jobs.Keys, {id, id});
      CodesDiffer(config, id, t.jobs[id], m, id, t.jobs[id], k);
      assert false;
    }
  }

  // The exact condition in a run without codes from elsewhere: another job of
  // the series has written the first code. Pallet jobs, RANDOM jobs and the
  // job that writes the first code are never blocked.
  lemma BlockedIffOvertaken(config: Config, commands: seq<Command>, id: Id)
    requires Hash(config, Run(config, EMPTY, commands).jobs.Keys) && id in Run(config, EMPTY, commands).jobs
    requires forall i :: 0 <= i < |commands| ==> !commands[i].Insert?
    ensures var t := Run(config, EMPTY, commands); Blocked(config, t, id) <==> Overtaken(config, t, id)
  {
    hide Run, Inv, CodeAt, Hash, SameSeries, Clean, SeriesInv, OthersIdle, Exists;
    var t := Run(config, EMPTY, commands);
    EmptyInv();
    RunKeeps(config, EMPTY, commands);
    SeriesRun(config, commands);
    HashOfFewer(config, t.jobs.Keys, {id});
    InvOfJob(t, id);
    if Overtaken(config, t, id) { FirstLostIsBlocked(config, commands, id); }
    if Blocked(config, t, id) {
      var k :| t.jobs[id].generated <= k < t.jobs[id].quantity && Exists(config, t, id, t.jobs[id], k);
      var b := OwnerOf(config, t, id, k);
      SeriesFacts(config, t, b);
      if b != id { SameFirst(config, t, b, id); }
      var d := OwnerOf(config, t, id, 0);
      if d == id {
        SeriesFacts(config, t, id);
        CleanAndAlone(config, t, id);
        assert false;
      }
    }
  }

  lemma SameFirst(config: Config, t: Tenant, b: Id, id: Id)
    requires b in t.jobs && id in t.jobs && SameSeries(t.jobs[b], t.jobs[id]) && FirstTaken(config, t, b)
    ensures FirstTaken(config, t, id)
  {
    hide CodeAt;
    SeriesShareCodes(config, b, t.jobs[b], id, t.jobs[id], 0);
  }

  // So a job that shares its series with no other is never blocked, and its
  // rows are its first codes.
  lemma CleanRun(config: Config, commands: seq<Command>, id: Id)
    requires Hash(config, Run(config, EMPTY, commands).jobs.Keys) && id in Run(config, EMPTY, commands).jobs
    requires forall i :: 0 <= i < |commands| ==> !commands[i].Insert?
    requires var t := Run(config, EMPTY, commands); forall b :: b in t.jobs && b != id ==> !SameSeries(t.jobs[b], t.jobs[id])
    ensures var t := Run(config, EMPTY, commands); !Blocked(config, t, id) && Clean(config, t, id)
  {
    hide Run, Hash, SameSeries, Clean, FirstTaken;
    BlockedIffOvertaken(config, commands, id);
    HashOfFewer(config, Run(config, EMPTY, commands).jobs.Keys, {id});
    CleanUnlessBlocked(config, commands, id);
  }

  /******* Steps *******/

  lemma StepKeepsOwnRows(config: Config, t: Tenant, c: Command)
    requires OwnRowsOnly(t) && !c.Insert?
    ensures OwnRowsOnly(Step(config, t, c))
  {
    hide Unfit, CodesFrom, Inserted, IsValidGs1X, IsNumber, Locked, DoApprove;
    var t' := Step(config, t, c);
    forall code | code in t'.rows ensures t'.rows[code].Made? {
      if c.Approve? && Enabled(t, c) { ApproveKeepsRows(t, c.id); }
    }
  }

  lemma ApproveKeepsRows(t: Tenant, id: Id)
    requires id in t.jobs
    ensures DoApprove(t, id).rows == t.rows
  {
  }

  lemma JobsStay(config: Config, t: Tenant, c: Command)
    requires Inv(t)
    ensures t.jobs.Keys <= Step(config, t, c).jobs.Keys
  {
    hide Inv, Step;
    forall id | id in t.jobs ensures id in Step(config, t, c).jobs { StepKeepsSeries(config, t, c, id); }
  }

  lemma FirstStays(config: Config, t: Tenant, c: Command, id: Id)
    requires Inv(t) && id in t.jobs && FirstTaken(config, t, id)
    ensures id in Step(config, t, c).jobs && FirstTaken(config, Step(config, t, c), id)
    ensures FirstOwner(config, Step(config, t, c), id) == FirstOwner(config, t, id)
  {
    hide Inv, Step;
    StepKeepsSeries(config, t, c, id);
    SameCodesSameCode(config, id, t.jobs[id], Step(config, t, c).jobs[id], 0);
    RowsKept(config, t, c, CodeAt(config, id, t.jobs[id], 0).value);
  }

  // The first chunk of a job leaves a row at its first code.
  lemma FirstChunk(config: Config, t: Tenant, w: Id, id: Id)
    requires Inv(t) && w in t.taken && t.taken[w].id == id && Fit(t, id) && t.jobs[id].generated == 0
    ensures id in RunChunk(config, t, w).jobs && FirstTaken(config, RunChunk(config, t, w), id)
  {
    hide Inv, Unfit, CodesFrom, Inserted, CodeAt;
    var job, t' := t.jobs[id], RunChunk(config, t, w);
    ChunkOf(config, t, w, id);
    InvOfJob(t, id);
    FitChunkHasCodes(config, t, id, 0, Chunk(job));
    var codes := CodesOf(config, id, job, 0, Chunk(job));
    CodesCovered(t.rows, codes);
    assert CodeAt(config, id, job, 0 + 0) == Success(codes[0]);
    SameCodesSameCode(config, id, job, t'.jobs[id], 0);
  }

  lemma FirstStep(config: Config, t: Tenant, c: Command, id: Id)
    requires Inv(t) && id in Step(config, t, c).jobs && (id in t.jobs ==> FirstOk(config, t, id))
    ensures FirstOk(config, Step(config, t, c), id)
  {
    hide Inv, Unfit, RunChunk, FirstTaken;
    if id !in t.jobs {
      NewJob(config, t, c, id);
    } else if t.jobs[id].status == PendingApproval {
      PendingStep(config, t, c, id);
    } else if FirstTaken(config, t, id) {
      FirstStays(config, t, c, id);
    } else if OwnChunk(t, c, id) {
      HeldNow(t, c.worker);
      if Unfit(t.jobs[id]) { UnfitChunk(config, t, c.worker); } else { FirstChunk(config, t, c.worker, id); }
    } else {
      OtherStep(config, t, c, id);
    }
  }

  lemma NothingIssued(config: Config, t: Tenant, id: Id)
    requires Inv(t) && id in t.jobs && t.jobs[id].issued == []
    ensures LeadOk(config, t, id)
  {
    hide Inv, CodeAt;
    if FirstTaken(config, t, id) && FirstOwner(config, t, id).Made? {
      RowIsIssued(t, CodeAt(config, id, t.jobs[id], 0).value);
    }
  }

  // A chunk of the job that writes the first code, or has written it.
  lemma OwnLead(config: Config, t: Tenant, w: Id, id: Id)
    requires Hash(config, t.jobs.Keys) && Inv(t) && SeriesInv(config, t)
    requires w in t.taken && t.taken[w].id == id && Fit(t, id)
    ensures id in RunChunk(config, t, w).jobs && LeadOk(config, RunChunk(config, t, w), id)
  {
    hide Inv, Unfit, CodesFrom, Inserted, CodeAt, Hash, SameSeries, Exists, RunChunk, SeriesInv;
    var job, t' := t.jobs[id], RunChunk(config, t, w);
    ChunkOf(config, t, w, id);
    InvOfJob(t, id);
    SeriesFacts(config, t, id);
    CommitIs(config, t, w);
    if FirstTaken(config, t, id) {
      FirstStays(config, t, Commit(w), id);
    } else {
      forall b | b in t.jobs && b != id && SameSeries(t.jobs[b], job) ensures t.jobs[b].generated == 0 {
        SeriesFacts(config, t, b);
        if FirstTaken(config, t, b) { SameFirst(config, t, b, id); }
      }
    }
    if FirstTaken(config, t', id) && FirstOwner(config, t', id) == Made(id) {
      assert Clean(config, t, id) && OthersIdle(t, id);
      CleanAndAlone(config, t, id);
      HashOfFewer(config, t.jobs.Keys, {id});
      OwnChunkClean(config, t, w, id);
      FullProgress(config, t, w, id);
      assert forall k :: job.generated <= k < job.generated + Chunk(job) ==> !Exists(config, t, id, job, k);
      assert t'.jobs[id].generated == job.generated + Chunk(job) && t'.jobs[id].quantity == job.quantity;
      forall b | b in t'.jobs && b != id && SameSeries(t'.jobs[b], t'.jobs[id]) ensures t'.jobs[b].generated == 0 {
        SameSeriesStays(t.jobs[b], job, t'.jobs[id]);
      }
    }
  }

  lemma SameSeriesStays(b: Job, a: Job, a': Job)
    requires SameCodes(a, a') && SameSeries(b, a')
    ensures SameSeries(b, a)
  {
    hide SameGtin;
  }

  lemma {:induction false} NoneInserted(rows: map<string, Owner>, codes: seq<string>)
    requires forall i :: 0 <= i < |codes| ==> codes[i] in rows
    ensures Inserted(rows, codes) == []
    decreases |codes|
  {
    if codes != [] { NoneInserted(rows, codes[..|codes| - 1]); }
  }

  // A rival's first chunk falls inside the rows of the job that leads.
  lemma RivalStays(config: Config, t: Tenant, w: Id, b: Id, id: Id)
    requires Inv(t) && w in t.taken && t.taken[w].id == b && Fit(t, b) && t.jobs[b].generated == 0
    requires id in t.jobs && Clean(config, t, id) && t.jobs[id].generated >= CHUNK && SameSeries(t.jobs[b], t.jobs[id])
    ensures b in RunChunk(config, t, w).jobs && RunChunk(config, t, w).jobs[b].generated == 0
  {
    hide Inv, Unfit, CodesFrom, Inserted, CodeAt, SameSeries;
    var n := Chunk(t.jobs[b]);
    ChunkOf(config, t, w, b);
    InvOfJob(t, b);
    InvOfJob(t, id);
    FitChunkHasCodes(config, t, b, 0, n);
    var codes := CodesOf(config, b, t.jobs[b], 0, n);
    forall i | 0 <= i < |codes| ensures codes[i] in t.rows {
      assert CodeAt(config, b, t.jobs[b], 0 + i) == Success(codes[i]);
      SeriesShareCodes(config, b, t.jobs[b], id, t.jobs[id], i);
      assert t.jobs[id].issued[i] == codes[i];
    }
    NoneInserted(t.rows, codes);
  }

  lemma RivalStep(config: Config, t: Tenant, c: Command, b: Id, id: Id)
    requires Inv(t) && id in t.jobs && Clean(config, t, id) && t.jobs[id].generated >= CHUNK && OthersIdle(t, id)
    requires var t' := Step(config, t, c); b in t'.jobs && id in t'.jobs && b != id && SameSeries(t'.jobs[b], t'.jobs[id])
    ensures Step(config, t, c).jobs[b].generated == 0
  {
    hide Inv, Unfit, RunChunk, SameGtin, Clean;
    if b !in t.jobs {
      NewJob(config, t, c, b);
    } else {
      StepKeepsSeries(config, t, c, b);
      StepKeepsSeries(config, t, c, id);
      assert SameSeries(t.jobs[b], t.jobs[id]) && t.jobs[b].generated == 0;
      if t.jobs[b].status == PendingApproval {
        PendingStep(config, t, c, b);
      } else if OwnChunk(t, c, b) {
        HeldNow(t, c.worker);
        if Unfit(t.jobs[b]) { UnfitChunk(config, t, c.worker); } else { RivalStays(config, t, c.worker, b, id); }
      } else {
        OtherStep(config, t, c, b);
      }
    }
  }

  lemma OtherLead(config: Config, t: Tenant, c: Command, id: Id)
    requires Inv(t) && id in t.jobs && t.jobs[id].status != PendingApproval && !OwnChunk(t, c, id) && LeadOk(config, t, id)
    ensures id in Step(config, t, c).jobs && LeadOk(config, Step(config, t, c), id)
  {
    hide Inv, Step, CodeAt, SameSeries;
    var t' := Step(config, t, c);
    OtherStep(config, t, c, id);
    StepKeeps(config, t, c);
    InvOfJob(t, id);
    SameCodesSameCode(config, id, t.jobs[id], t'.jobs[id], 0);
    if FirstTaken(config, t', id) && FirstOwner(config, t', id) == Made(id) {
      RowIsIssued(t', CodeAt(config, id, t'.jobs[id], 0).value);
      assert FirstTaken(config, t, id) && FirstOwner(config, t, id) == Made(id);
      if t.jobs[id].generated != t.jobs[id].quantity {
        CleanCarries(config, t, id, t');
        forall b | b in t'.jobs && b != id && SameSeries(t'.jobs[b], t'.jobs[id]) ensures t'.jobs[b].generated == 0 {
          RivalStep(config, t, c, b, id);
        }
      }
    }
  }

  lemma LeadStep(config: Config, t: Tenant, c: Command, id: Id)
    requires Hash(config, t.jobs.Keys) && Inv(t) && SeriesInv(config, t) && id in Step(config, t, c).jobs
    ensures LeadOk(config, Step(config, t, c), id)
  {
    hide Inv, Hash, Unfit, RunChunk, LeadOk, SeriesInv;
    StepKeeps(config, t, c);
    if id !in t.jobs {
      NewJob(config, t, c, id);
      NothingIssued(config, Step(config, t, c), id);
    } else if t.jobs[id].status == PendingApproval {
      PendingStep(config, t, c, id);
      NothingIssued(config, Step(config, t, c), id);
    } else if OwnChunk(t, c, id) {
      HeldNow(t, c.worker);
      if Unfit(t.jobs[id]) {
        SeriesFacts(config, t, id);
        UnfitLead(config, t, c.worker, id);
      } else {
        OwnLead(config, t, c.worker, id);
      }
    } else {
      SeriesFacts(config, t, id);
      OtherLead(config, t, c, id);
    }
  }

  lemma UnfitLead(config: Config, t: Tenant, w: Id, id: Id)
    requires w in t.taken && t.taken[w] == Taken(id, t.taken[w].job) && id in t.jobs && t.taken[w].job == t.jobs[id]
    requires Unfit(t.jobs[id]) && LeadOk(config, t, id)
    ensures id in RunChunk(config, t, w).jobs && LeadOk(config, RunChunk(config, t, w), id)
  {
    hide Unfit, CodeAt, SameGtin, RunChunk;
    UnfitChunk(config, t, w);
    var t' := RunChunk(config, t, w);
    SameCodesSameCode(config, id, t.jobs[id], t'.jobs[id], 0);
    if Clean(config, t, id) { CleanCarries(config, t, id, t'); }
    forall b | b in t'.jobs && b != id && SameSeries(t'.jobs[b], t'.jobs[id]) ensures t'.jobs[b] == t.jobs[b] && SameSeries(t.jobs[b], t.jobs[id]) {}
  }

  lemma {:induction false} SeriesRun(config: Config, commands: seq<Command>)
    requires Hash(config, Run(config, EMPTY, commands).jobs.Keys)
    requires forall i :: 0 <= i < |commands| ==> !commands[i].Insert?
    ensures SeriesInv(config, Run(config, EMPTY, commands))
    decreases |commands|
  {
    hide Inv, Step, Hash, Coded, FirstOk, LeadOk;
    if commands != [] {
      var before, c := commands[..|commands| - 1], commands[|commands| - 1];
      var t := Run(config, EMPTY, before);
      EmptyInv();
      RunKeeps(config, EMPTY, before);
      JobsStay(config, t, c);
      HashOfFewer(config, Step(config, t, c).jobs.Keys, t.jobs.Keys);
      SeriesRun(config, before);
      StepKeepsOwnRows(config, t, c);
      forall id | id in Step(config, t, c).jobs ensures SeriesOk(config, Step(config, t, c), id) {
        if id in t.jobs { SeriesFacts(config, t, id); }
        StepKeepsCoded(config, t, c, id);
        FirstStep(config, t, c, id);
        LeadStep(config, t, c, id);
      }
    }
  }
}
