// What code generation guarantees: exact progress, when a job can no longer
// finish, and that rows are exactly the codes of the counted indices.
module CodeJobsTheorems {
  import opened Wrappers
  import opened Gs1CheckDigit
  import opened Gs1Path
  import opened CodeJobs
  import opened CodeJobsInvariant
  import opened CodeJobsCodes

  /******* Runs *******/

  lemma {:induction false} RunJoins(config: Config, t: Tenant, a: seq<Command>, b: seq<Command>)
    ensures Run(config, t, a + b) == Run(config, Run(config, t, a), b)
    decreases |b|
  {
    hide Step;
    if b == [] {
      assert a + b == a;
    } else {
      assert (a + b)[..|a + b| - 1] == a + b[..|b| - 1];
      RunJoins(config, t, a, b[..|b| - 1]);
    }
  }

  lemma RunOne(config: Config, t: Tenant, c: Command)
    ensures Run(config, t, [c]) == Step(config, t, c)
  {
    hide Step;
    assert [c][..0] == [];
  }

  lemma CommitIs(config: Config, t: Tenant, w: Id)
    requires w in t.taken
    ensures Step(config, t, Commit(w)) == RunChunk(config, t, w)
  {
    hide RunChunk;
  }

  /******* One chunk *******/

  lemma {:induction false} AllInserted(rows: map<string, Owner>, codes: seq<string>)
    ensures Inserted(rows, codes) == codes <==> Distinct(codes) && Absent(rows, codes)
    ensures |Inserted(rows, codes)| == |codes| <==> Inserted(rows, codes) == codes
    decreases |codes|
  {
    if codes != [] {
      var before := codes[..|codes| - 1];
      AllInserted(rows, before);
      assert before + [codes[|codes| - 1]] == codes;
      InsertedAreNew(rows, codes);
      if Distinct(codes) && Absent(rows, codes) {
        assert Distinct(before) && Absent(rows, before);
      }
    }
  }

  predicate Exists(config: Config, t: Tenant, id: Id, job: Job, index: nat) {
    CodeAt(config, id, job, index).Success? && CodeAt(config, id, job, index).value in t.rows
  }

  // A job is blocked when the code of an index it has not counted yet exists.
  predicate Blocked(config: Config, t: Tenant, id: Id)
    requires id in t.jobs
  {
    exists k :: t.jobs[id].generated <= k < t.jobs[id].quantity && Exists(config, t, id, t.jobs[id], k)
  }

  predicate Fit(t: Tenant, id: Id) {
    id in t.jobs && Runnable(t.jobs[id]) && !Unfit(t.jobs[id])
  }

  function CodesOf(config: Config, id: Id, job: Job, index: nat, n: nat): seq<string>
    requires CodesFrom(config, id, job, index, n).Success?
  {
    CodesFrom(config, id, job, index, n).value
  }

  lemma FitChunkHasCodes(config: Config, t: Tenant, id: Id, index: nat, n: nat)
    requires Inv(t) && Fit(t, id) && index + n <= t.jobs[id].quantity
    ensures CodesFrom(config, id, t.jobs[id], index, n).Success?
    ensures |CodesOf(config, id, t.jobs[id], index, n)| == n
    ensures forall k :: 0 <= k < n ==>
      CodeAt(config, id, t.jobs[id], index + k) == Success(CodesOf(config, id, t.jobs[id], index, n)[k])
  {
    hide Inv, CodeAt, Unfit, CodesFrom;
    forall k | index <= k < index + n ensures CodeAt(config, id, t.jobs[id], k).Success? {
      FitJobHasCodes(config, t, id, k);
    }
    CodesFromEach(config, id, t.jobs[id], index, n);
  }

  lemma ChunkCodesDistinct(config: Config, t: Tenant, id: Id, index: nat, n: nat)
    requires Hash(config, {id}) && Inv(t) && Fit(t, id) && index + n <= t.jobs[id].quantity
    requires CodesFrom(config, id, t.jobs[id], index, n).Success?
    ensures Distinct(CodesOf(config, id, t.jobs[id], index, n))
  {
    hide Inv, CodeAt, Unfit, CodesFrom, Hash;
    FitChunkHasCodes(config, t, id, index, n);
    assert t.jobs[id].quantity <= MAX_QUANTITY by { InvOfJob(t, id); }
    var codes := CodesOf(config, id, t.jobs[id], index, n);
    assert {id, id} == {id};
    forall k, l | 0 <= k < l < |codes| ensures codes[k] != codes[l] {
      if codes[k] == codes[l] {
        CodesDiffer(config, id, t.jobs[id], index + k, id, t.jobs[id], index + l);
      }
    }
  }

  // The transaction of a fit job, spelled out.
  lemma ChunkOf(config: Config, t: Tenant, w: Id, id: Id)
    requires Inv(t) && w in t.taken && t.taken[w].id == id && Fit(t, id)
    ensures var n := Chunk(t.jobs[id]);
      && CodesFrom(config, id, t.jobs[id], t.jobs[id].generated, n).Success?
      && var inserted := Inserted(t.rows, CodesOf(config, id, t.jobs[id], t.jobs[id].generated, n));
      && RunChunk(config, t, w) == t.(taken := t.taken - {w}, rows := WithRows(t.rows, inserted, id),
                                       jobs := t.jobs[id := Advanced(t.jobs[id], inserted)])
  {
    hide Inv, Unfit, CodesFrom, Inserted;
    assert Held(t, w) by { HeldNow(t, w); }
    assert Counted(t, id) by { InvOfJob(t, id); }
    FitChunkHasCodes(config, t, id, t.jobs[id].generated, Chunk(t.jobs[id]));
  }

  lemma HeldNow(t: Tenant, w: Id)
    requires Inv(t) && w in t.taken
    ensures Held(t, w)
  {
  }

  // A chunk advances the counter by its whole size exactly when none of its
  // codes exists; then its rows are its codes in order.
  lemma FullProgress(config: Config, t: Tenant, w: Id, id: Id)
    requires Hash(config, {id}) && Inv(t) && w in t.taken && t.taken[w].id == id && Fit(t, id)
    ensures var job, job' := t.jobs[id], RunChunk(config, t, w).jobs[id];
      && Chunk(job) > 0
      && CodesFrom(config, id, job, job.generated, Chunk(job)).Success?
      && (job'.generated == job.generated + Chunk(job) <==>
          forall k :: job.generated <= k < job.generated + Chunk(job) ==> !Exists(config, t, id, job, k))
      && (job'.generated == job.generated + Chunk(job) ==>
          job'.issued == job.issued + CodesOf(config, id, job, job.generated, Chunk(job)))
  {
    hide Inv, Unfit, CodesFrom, Inserted, CodeAt, Hash;
    var job := t.jobs[id];
    var n := Chunk(job);
    ChunkOf(config, t, w, id);
    assert Counted(t, id) by { InvOfJob(t, id); }
    FitChunkHasCodes(config, t, id, job.generated, n);
    ChunkCodesDistinct(config, t, id, job.generated, n);
    var codes := CodesOf(config, id, job, job.generated, n);
    AllInserted(t.rows, codes);
    if Absent(t.rows, codes) {
      forall k | job.generated <= k < job.generated + n ensures !Exists(config, t, id, job, k) {
        assert CodeAt(config, id, job, job.generated + (k - job.generated)) == Success(codes[k - job.generated]);
      }
    } else {
      var k :| 0 <= k < |codes| && codes[k] in t.rows;
      assert Exists(config, t, id, job, job.generated + k);
    }
  }

  /******* Other transactions *******/

  // What the codes of a job depend on.
  predicate SameCodes(a: Job, b: Job) {
    a.scheme == b.scheme && a.gtin == b.gtin && a.lot == b.lot && a.rule == b.rule && a.quantity == b.quantity
    && a.sscc == b.sscc
  }

  predicate OwnChunk(t: Tenant, c: Command, id: Id) {
    c.Commit? && c.worker in t.taken && t.taken[c.worker].id == id
  }

  // No other transaction changes the codes or the count of an approved job,
  // and no transaction at all removes a row.
  lemma OtherStep(config: Config, t: Tenant, c: Command, id: Id)
    requires Inv(t) && id in t.jobs && t.jobs[id].status != PendingApproval && !OwnChunk(t, c, id)
    ensures var t' := Step(config, t, c);
      && id in t'.jobs && SameCodes(t'.jobs[id], t.jobs[id])
      && t'.jobs[id].status != PendingApproval
      && t'.jobs[id].generated == t.jobs[id].generated && t'.jobs[id].issued == t.jobs[id].issued
      && t.rows.Keys <= t'.rows.Keys
  {
    hide Inv, Unfit, CodesFrom, Inserted, IsValidGs1X, IsNumber, Locked;
  }

  lemma {:induction false} CodesCovered(rows: map<string, Owner>, codes: seq<string>)
    ensures forall c :: c in codes ==> c in rows || c in Inserted(rows, codes)
    decreases |codes|
  {
    if codes != [] { CodesCovered(rows, codes[..|codes| - 1]); }
  }

  /******* A blocked job never finishes *******/

  lemma SameCodesSameCode(config: Config, id: Id, a: Job, b: Job, index: nat)
    requires SameCodes(a, b)
    ensures CodeAt(config, id, a, index) == CodeAt(config, id, b, index)
  {
  }

  lemma OwnChunkKeepsBlocked(config: Config, t: Tenant, w: Id, id: Id)
    requires Inv(t) && w in t.taken && t.taken[w].id == id && Fit(t, id) && Blocked(config, t, id)
    ensures id in RunChunk(config, t, w).jobs && Blocked(config, RunChunk(config, t, w), id)
    ensures RunChunk(config, t, w).jobs[id].status != PendingApproval
  {
    hide Inv, Unfit, CodesFrom, Inserted, CodeAt;
    var job := t.jobs[id];
    var n := Chunk(job);
    var t' := RunChunk(config, t, w);
    ChunkOf(config, t, w, id);
    assert Counted(t, id) by { InvOfJob(t, id); }
    FitChunkHasCodes(config, t, id, job.generated, n);
    var codes := CodesOf(config, id, job, job.generated, n);
    CodesCovered(t.rows, codes);
    AllInserted(t.rows, codes);
    var k :| job.generated <= k < job.quantity && Exists(config, t, id, job, k);
    SameCodesSameCode(config, id, job, t'.jobs[id], k);
    if k < job.generated + n {
      assert codes[k - job.generated] in t.rows;
      var last := job.generated + (n - 1);
      assert CodeAt(config, id, job, last) == Success(codes[n - 1]);
      SameCodesSameCode(config, id, job, t'.jobs[id], last);
      assert Exists(config, t', id, t'.jobs[id], last);
    } else {
      assert Exists(config, t', id, t'.jobs[id], k);
    }
  }

  lemma BlockedStep(config: Config, t: Tenant, c: Command, id: Id)
    requires Inv(t) && id in t.jobs && t.jobs[id].status != PendingApproval && Blocked(config, t, id)
    ensures var t' := Step(config, t, c);
      id in t'.jobs && t'.jobs[id].status != PendingApproval && Blocked(config, t', id)
  {
    hide Inv, Unfit, CodesFrom, Inserted, CodeAt;
    var t' := Step(config, t, c);
    var k :| t.jobs[id].generated <= k < t.jobs[id].quantity && Exists(config, t, id, t.jobs[id], k);
    if OwnChunk(t, c, id) {
      HeldNow(t, c.worker);
      if Unfit(t.jobs[id]) {
        SameCodesSameCode(config, id, t.jobs[id], t'.jobs[id], k);
        assert Exists(config, t', id, t'.jobs[id], k);
      } else {
        OwnChunkKeepsBlocked(config, t, c.worker, id);
      }
    } else {
      OtherStep(config, t, c, id);
      SameCodesSameCode(config, id, t.jobs[id], t'.jobs[id], k);
      assert Exists(config, t', id, t'.jobs[id], k);
    }
  }

  // Whatever happens afterwards, retries included.
  lemma {:induction false} BlockedForever(config: Config, t: Tenant, commands: seq<Command>, id: Id)
    requires Inv(t) && id in t.jobs && t.jobs[id].status != PendingApproval && Blocked(config, t, id)
    ensures var t' := Run(config, t, commands);
      id in t'.jobs && t'.jobs[id].status != PendingApproval && t'.jobs[id].status != Completed && Blocked(config, t', id)
    decreases |commands|
  {
    hide Inv, Step, Exists;
    if commands != [] {
      BlockedForever(config, t, commands[..|commands| - 1], id);
      RunKeeps(config, t, commands[..|commands| - 1]);
      BlockedStep(config, Run(config, t, commands[..|commands| - 1]), commands[|commands| - 1], id);
    }
    RunKeeps(config, t, commands);
    InvOfJob(Run(config, t, commands), id);
  }
}
