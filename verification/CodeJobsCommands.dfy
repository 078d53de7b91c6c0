// What each transaction on jobs does: when a job changes its status, which
// references an approval reserves, and which codes a chunk gives rows to.
module CodeJobsCommands {
  import opened Wrappers
  import opened Gs1CheckDigit
  import opened Gs1Path
  import opened CodeJobs
  import opened CodeJobsInvariant
  import opened CodeJobsTheorems
  import opened CodeJobsProgress
  import opened CodeJobsExact

  predicate HeldBySome(t: Tenant, id: Id) {
    exists w :: w in t.taken && t.taken[w].id == id
  }

  // The job cannot be run: a legacy job, a batch outside the X set, or items
  // without a valid GTIN.
  predicate CannotRun(job: Job) {
    job.scheme == Legacy || (job.lot != "" && !IsValidGs1X(job.lot, 20)) || (job.scheme == Sgtin && !IsValidGtin(job.gtin))
  }

  predicate MayReserve(t: Tenant, quantity: nat) {
    t.prefix.Some? && |t.prefix.value| <= 16 && t.next + quantity <= Pow10(16 - |t.prefix.value|)
  }

  // The status of a job after a transaction, from its row and the locks.
  function StatusAfter(t: Tenant, c: Command, id: Id, generated: nat): JobStatus
    requires id in t.jobs
  {
    var job := t.jobs[id];
    match c
    case Approve(j) =>
      if j == id && job.status == PendingApproval && (job.scheme == Sgtin || (job.scheme == Sscc && MayReserve(t, job.quantity)))
      then Queued else job.status
    case Cancel(j) =>
      if j == id && !HeldBySome(t, id) && (job.status == PendingApproval || job.status == Queued || job.status == Running)
      then Cancelled else job.status
    case Retry(j) => if j == id && job.status == Failed then Queued else job.status
    case Commit(w) =>
      if w in t.taken && t.taken[w].id == id then
        if CannotRun(job) then Failed else if generated == job.quantity then Completed else Running
      else job.status
    case _ => job.status
  }

  lemma AdminStatus(config: Config, t: Tenant, c: Command, id: Id)
    requires Inv(t) && id in t.jobs && !c.Commit?
    ensures var t' := Step(config, t, c); id in t'.jobs && t'.jobs[id].status == StatusAfter(t, c, id, 0)
  {
    InvOfJob(t, id);
    hide Inv, IsValidGs1X, IsNumber, RunChunk, Locked, HeldBySome, Pow10;
    assert Locked(t, id) <==> HeldBySome(t, id) by { LockedIsHeld(t, id); }
  }

  lemma LockedIsHeld(t: Tenant, id: Id)
    ensures Locked(t, id) <==> HeldBySome(t, id)
  {
  }

  lemma FitIsRunnable(t: Tenant, id: Id)
    requires Inv(t) && id in t.jobs && Runnable(t.jobs[id])
    ensures Unfit(t.jobs[id]) <==> CannotRun(t.jobs[id])
  {
    InvOfJob(t, id);
    hide Inv, IsValidGs1X, IsValidGtin;
  }

  lemma OwnCommitStatus(config: Config, t: Tenant, w: Id, id: Id)
    requires Inv(t) && w in t.taken && t.taken[w].id == id
    ensures var t' := RunChunk(config, t, w);
      && id in t.jobs && id in t'.jobs
      && t'.jobs[id].status == (if CannotRun(t.jobs[id]) then Failed
                                else if t'.jobs[id].generated == t.jobs[id].quantity then Completed else Running)
  {
    HeldNow(t, w);
    FitIsRunnable(t, id);
    StepKeeps(config, t, Commit(w));
    CommitIs(config, t, w);
    if Unfit(t.jobs[id]) {
      UnfitChunk(config, t, w);
    } else {
      ChunkOf(config, t, w, id);
      InvOfJob(RunChunk(config, t, w), id);
    }
    hide Inv, Unfit, CannotRun, CodesFrom, Inserted, WithRows, RunChunk, Step;
  }

  lemma CommitStatus(config: Config, t: Tenant, w: Id, id: Id)
    requires Inv(t) && id in t.jobs
    ensures var t' := Step(config, t, Commit(w));
      id in t'.jobs && t'.jobs[id].status == StatusAfter(t, Commit(w), id, t'.jobs[id].generated)
  {
    if w in t.taken {
      CommitIs(config, t, w);
      if t.taken[w].id == id {
        OwnCommitStatus(config, t, w, id);
      } else {
        HeldNow(t, w);
        OnlyItsOwn(config, t, w, t.taken[w].id);
        var t' := RunChunk(config, t, w);
        assert t'.jobs[id] == (t'.jobs - {t.taken[w].id})[id] == t.jobs[id];
      }
      hide Step;
    }
    hide Inv, RunChunk, CannotRun;
  }

  // In every reachable state.
  lemma StatusChanges(config: Config, t: Tenant, c: Command, id: Id)
    requires Inv(t) && id in t.jobs
    ensures var t' := Step(config, t, c);
      id in t'.jobs && t'.jobs[id].status == StatusAfter(t, c, id, t'.jobs[id].generated)
  {
    hide Inv, Step;
    if c.Commit? {
      CommitStatus(config, t, c.worker, id);
    } else {
      AdminStatus(config, t, c, id);
      hide CannotRun, MayReserve, HeldBySome;
    }
  }

  // A job as it is ordered, at most a million codes and with a batch that can
  // be printed.
  lemma Ordered(config: Config, t: Tenant, id: Id, scheme: Scheme, gtin: string, lot: string, rule: SerialRule, quantity: nat)
    ensures Enabled(t, Create(id, scheme, gtin, lot, rule, quantity)) <==>
      id !in t.jobs && 1 <= quantity <= 1_000_000 && (lot == "" || IsValidGs1X(lot, 20))
    ensures Enabled(t, Create(id, scheme, gtin, lot, rule, quantity)) ==>
      Step(config, t, Create(id, scheme, gtin, lot, rule, quantity)) ==
        t.(jobs := t.jobs[id := Job(scheme, gtin, lot, rule, quantity, 0, PendingApproval, None, [])])
  {
  }

  // An approved pallet job gets the next references of the tenant's prefix, as
  // many as it has codes.
  lemma Reserves(config: Config, t: Tenant, id: Id)
    requires Inv(t) && id in t.jobs && t.jobs[id].status == PendingApproval
    ensures var t', job := Step(config, t, Approve(id)), t.jobs[id];
      if job.scheme == Sscc && MayReserve(t, job.quantity) then
        && id in t'.jobs && t'.jobs[id].sscc == Some(Allocation(t.prefix.value, t.next))
        && t'.next == t.next + job.quantity && t'.prefix == t.prefix
      else id in t'.jobs && t'.jobs[id].sscc == job.sscc && t'.next == t.next && t'.prefix == t.prefix
  {
    InvOfJob(t, id);
    hide Inv, IsNumber, Pow10;
  }

  // The prefix of a tenant can change until references of it are in use.
  lemma PrefixChanges(config: Config, t: Tenant, p: string)
    requires Inv(t)
    ensures Step(config, t, SetPrefix(p)).prefix ==
      if IsNumber(p) && 4 <= |p| <= 12 && (t.next == 0 || t.prefix == Some(p)) then Some(p) else t.prefix
  {
    hide IsNumber;
  }

  // A worker that is free takes a job exactly when nobody holds it, it can
  // run, and every older job that can run is held.
  lemma Takes(config: Config, t: Tenant, w: Id, id: Id)
    ensures Enabled(t, Take(w, id)) <==>
      && w !in t.taken && id in t.jobs && (t.jobs[id].status == Queued || t.jobs[id].status == Running) && !HeldBySome(t, id)
      && forall k :: k in t.jobs && k < id && (t.jobs[k].status == Queued || t.jobs[k].status == Running) ==> HeldBySome(t, k)
    ensures Enabled(t, Take(w, id)) ==> Step(config, t, Take(w, id)) == t.(taken := t.taken[w := Taken(id, t.jobs[id])])
  {
    LockedIsHeld(t, id);
    forall k ensures Locked(t, k) <==> HeldBySome(t, k) { LockedIsHeld(t, k); }
    hide Locked, HeldBySome;
  }

  // The lock lasts until the worker commits or gives up, and nobody else's
  // changes; giving up leaves everything else.
  lemma LocksLast(config: Config, t: Tenant, c: Command)
    requires Enabled(t, c)
    ensures Step(config, t, c).taken ==
      if c.Take? then t.taken[c.worker := Taken(c.id, t.jobs[c.id])]
      else if c.Commit? || c.Abort? then t.taken - {c.worker} else t.taken
    ensures c.Abort? ==> Step(config, t, c) == t.(taken := t.taken - {c.worker})
    ensures c.Insert? ==> Step(config, t, c) == t.(rows := t.rows[c.code := Foreign])
  {
    hide Unfit, CodesFrom, Inserted, WithRows, Locked;
  }

  lemma {:induction false} InsertedIsMissing(rows: map<string, Owner>, codes: seq<string>)
    ensures forall c :: c in Inserted(rows, codes) <==> c in codes && c !in rows
    decreases |codes|
  {
    if codes != [] {
      InsertedIsMissing(rows, codes[..|codes| - 1]);
      assert codes == codes[..|codes| - 1] + [codes[|codes| - 1]];
    }
  }

  // The codes without a row get one, owned by the job, and are what it counts;
  // nobody else's row changes.
  ghost predicate ChunkLaw(t: Tenant, t': Tenant, id: Id, codes: seq<string>)
    requires id in t.jobs
  {
    && id in t'.jobs && t'.jobs[id].generated - t.jobs[id].generated == |t'.jobs[id].issued| - |t.jobs[id].issued|
    && (forall c :: c in t'.jobs[id].issued <==> c in t.jobs[id].issued || (c in codes && c !in t.rows))
    && (forall c :: c in t'.rows <==> c in t.rows || c in codes)
    && (forall c :: c in t'.rows ==> t'.rows[c] == if c in t.rows then t.rows[c] else Made(id))
  }

  // A chunk is what is left of a job, at most ten thousand codes.
  lemma ChunkRows(config: Config, t: Tenant, w: Id, id: Id) returns (codes: seq<string>)
    requires Inv(t) && w in t.taken && t.taken[w].id == id && Fit(t, id)
    ensures 0 < |codes| && |codes| == if t.jobs[id].quantity - t.jobs[id].generated < 10_000 then t.jobs[id].quantity - t.jobs[id].generated else 10_000
    ensures CodesFrom(config, id, t.jobs[id], t.jobs[id].generated, |codes|) == Success(codes)
    ensures ChunkLaw(t, Step(config, t, Commit(w)), id, codes)
  {
    InvOfJob(t, id);
    HeldNow(t, w);
    hide Inv, Unfit, CodesFrom, RunChunk, Step, CodeAt, ChunkLaw;
    var job := t.jobs[id];
    FitChunkHasCodes(config, t, id, job.generated, Chunk(job));
    codes := CodesOf(config, id, job, job.generated, Chunk(job));
    CommitIs(config, t, w);
    ChunkOf(config, t, w, id);
    InsertedLaw(t, w, id, codes);
  }

  lemma InsertedLaw(t: Tenant, w: Id, id: Id, codes: seq<string>)
    requires id in t.jobs
    ensures var inserted := Inserted(t.rows, codes);
      ChunkLaw(t, t.(taken := t.taken - {w}, rows := WithRows(t.rows, inserted, id), jobs := t.jobs[id := Advanced(t.jobs[id], inserted)]), id, codes)
  {
    hide Inserted;
    InsertedIsMissing(t.rows, codes);
  }
}
