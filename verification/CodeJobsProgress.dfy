// A job that is not blocked finishes in as many chunks as its size asks for,
// so being blocked is exactly what keeps a fit job from finishing.
module CodeJobsProgress {
  import opened CodeJobs
  import opened CodeJobsInvariant
  import opened CodeJobsCodes
  import opened CodeJobsTheorems

  lemma OwnChunkKeepsUnblocked(config: Config, t: Tenant, w: Id, id: Id)
    requires Inv(t) && w in t.taken && t.taken[w].id == id && Fit(t, id) && !Blocked(config, t, id) && Hash(config, {id})
    ensures var t' := RunChunk(config, t, w);
      && id in t'.jobs && !Blocked(config, t', id)
      && SameCodes(t'.jobs[id], t.jobs[id])
      && t'.jobs[id].generated == t.jobs[id].generated + Chunk(t.jobs[id])
      && (Runnable(t'.jobs[id]) || t'.jobs[id].status == Completed)
      && (t'.jobs[id].status == Completed <==> t'.jobs[id].generated == t.jobs[id].quantity)
  {
    hide Inv, Unfit, CodesFrom, Inserted, CodeAt, Hash;
    var job := t.jobs[id];
    var n := Chunk(job);
    var t' := RunChunk(config, t, w);
    ChunkOf(config, t, w, id);
    FullProgress(config, t, w, id);
    assert Counted(t, id) by { InvOfJob(t, id); }
    FitChunkHasCodes(config, t, id, job.generated, n);
    var codes := CodesOf(config, id, job, job.generated, n);
    AllInserted(t.rows, codes);
    assert {id, id} == {id};
    assert Inserted(t.rows, codes) == codes;
    forall k | job.generated + n <= k < job.quantity ensures !Exists(config, t', id, t'.jobs[id], k) {
      SameCodesSameCode(config, id, job, t'.jobs[id], k);
      if Exists(config, t', id, t'.jobs[id], k) {
        var code := CodeAt(config, id, job, k).value;
        assert !Exists(config, t, id, job, k);
        var m :| 0 <= m < n && codes[m] == code;
        CodesDiffer(config, id, job, job.generated + m, id, job, k);
        assert false;
      }
    }
  }

  // The worker takes the job and runs one chunk, n times over.
  function Rounds(w: Id, id: Id, n: nat): seq<Command> {
    if n == 0 then [] else Rounds(w, id, n - 1) + [Take(w, id), Commit(w)]
  }

  lemma RunTwo(config: Config, t: Tenant, commands: seq<Command>, c: Command, d: Command)
    ensures Run(config, t, commands + [c, d]) == Step(config, Step(config, Run(config, t, commands), c), d)
  {
    hide Step;
    assert (commands + [c, d])[..|commands| + 1] == commands + [c];
    assert (commands + [c])[..|commands|] == commands;
  }

  ghost predicate Ready(config: Config, t: Tenant, w: Id, id: Id) {
    Inv(t) && Enabled(t, Take(w, id)) && Fit(t, id) && !Blocked(config, t, id)
  }

  // One round of a ready job: a whole chunk, after which it has finished or is ready again.
  lemma OneRound(config: Config, t: Tenant, w: Id, id: Id)
    requires Hash(config, {id}) && Ready(config, t, w, id)
    ensures var t' := Step(config, Step(config, t, Take(w, id)), Commit(w));
      && id in t'.jobs && t'.jobs[id].quantity == t.jobs[id].quantity
      && t.jobs[id].generated < t.jobs[id].quantity
      && t'.jobs[id].generated == t.jobs[id].generated + Chunk(t.jobs[id])
      && if t'.jobs[id].generated == t.jobs[id].quantity then t'.jobs[id].status == Completed
         else Ready(config, t', w, id)
  {
    hide Inv, Unfit, RunChunk, CodeAt, Hash;
    var taken := Step(config, t, Take(w, id));
    StepKeeps(config, t, Take(w, id));
    StepKeeps(config, taken, Commit(w));
    InvOfJob(t, id);
    assert !Blocked(config, taken, id) by {
      forall k | t.jobs[id].generated <= k < t.jobs[id].quantity ensures !Exists(config, taken, id, t.jobs[id], k) {
        assert !Exists(config, t, id, t.jobs[id], k);
      }
    }
    OwnChunkKeepsUnblocked(config, taken, w, id);
    OnlyItsOwn(config, taken, w, id);
    var t' := RunChunk(config, taken, w);
    if Runnable(t'.jobs[id]) {
      StillFirst(t, w, id, t');
    }
  }

  lemma StillFirst(t: Tenant, w: Id, id: Id, t': Tenant)
    requires Enabled(t, Take(w, id)) && Fit(t, id)
    requires t'.taken == t.taken[w := Taken(id, t.jobs[id])] - {w}
    requires t'.jobs.Keys == t.jobs.Keys && t'.jobs - {id} == t.jobs - {id}
    requires SameCodes(t'.jobs[id], t.jobs[id]) && Runnable(t'.jobs[id])
    ensures Enabled(t', Take(w, id)) && Fit(t', id)
  {
    assert t'.taken == t.taken;
    forall k | k in t'.jobs && k < id && Runnable(t'.jobs[k]) ensures Locked(t', k) {
      assert t'.jobs[k] == (t'.jobs - {id})[k] == t.jobs[k];
      assert Locked(t, k);
    }
  }

  // A chunk changes no other job and no other lock.
  lemma OnlyItsOwn(config: Config, taken: Tenant, w: Id, id: Id)
    requires w in taken.taken && taken.taken[w].id == id && id in taken.jobs
    ensures var t' := RunChunk(config, taken, w);
      t'.taken == taken.taken - {w} && t'.jobs.Keys == taken.jobs.Keys && t'.jobs - {id} == taken.jobs - {id}
  {
    hide Unfit, CodesFrom, Inserted, WithRows;
  }

  lemma {:induction false} SomeRounds(config: Config, t: Tenant, w: Id, id: Id, n: nat)
    requires Hash(config, {id}) && Ready(config, t, w, id)
    requires t.jobs[id].generated + n * CHUNK < t.jobs[id].quantity
    ensures var t' := Run(config, t, Rounds(w, id, n));
      && Ready(config, t', w, id) && t'.jobs[id].quantity == t.jobs[id].quantity
      && t'.jobs[id].generated == t.jobs[id].generated + n * CHUNK
    decreases n
  {
    hide Inv, Step, Hash, Ready;
    if n > 0 {
      SomeRounds(config, t, w, id, n - 1);
      OneRound(config, Run(config, t, Rounds(w, id, n - 1)), w, id);
      RunTwo(config, t, Rounds(w, id, n - 1), Take(w, id), Commit(w));
    }
  }

  // Every started chunk of 10000 counts as one.
  function RoundsNeeded(job: Job): nat
    requires job.generated < job.quantity
  {
    (job.quantity - job.generated - 1) / CHUNK + 1
  }

  lemma FinishesUnlessBlocked(config: Config, t: Tenant, w: Id, id: Id)
    requires Hash(config, {id}) && Ready(config, t, w, id)
    ensures t.jobs[id].generated < t.jobs[id].quantity
    ensures var t' := Run(config, t, Rounds(w, id, RoundsNeeded(t.jobs[id])));
      id in t'.jobs && t'.jobs[id].status == Completed && t'.jobs[id].generated == t.jobs[id].quantity
  {
    hide Inv, Step, Hash, Unfit, Blocked, Locked;
    OneRound(config, t, w, id);
    var n := RoundsNeeded(t.jobs[id]) - 1;
    SomeRounds(config, t, w, id, n);
    OneRound(config, Run(config, t, Rounds(w, id, n)), w, id);
    RunTwo(config, t, Rounds(w, id, n), Take(w, id), Commit(w));
  }

  // The exact condition: a fit job that a worker can take now finishes in some
  // run if and only if no code of an index it has not counted exists yet.
  lemma CanFinish(config: Config, t: Tenant, w: Id, id: Id)
    requires Hash(config, {id}) && Inv(t) && Enabled(t, Take(w, id)) && Fit(t, id)
    ensures (exists commands :: id in Run(config, t, commands).jobs && Run(config, t, commands).jobs[id].status == Completed)
       <==> !Blocked(config, t, id)
  {
    hide Inv, Step, Hash, Exists, Run;
    if Blocked(config, t, id) {
      forall commands ensures id in Run(config, t, commands).jobs && Run(config, t, commands).jobs[id].status != Completed {
        BlockedForever(config, t, commands, id);
      }
    } else {
      FinishesUnlessBlocked(config, t, w, id);
    }
  }
}
