// The worker's transaction statement by statement over the tenant's tables:
// it refines the Take and Commit steps of the job protocol.
module CodeJobWorker {
  import opened Wrappers
  import opened Gs1CheckDigit
  import opened Numbers
  import opened CodeJobs
  import opened CodeJobsInvariant
  import opened CodeJobsContents

  class Database {
    const config: Config
    var jobs: map<Id, Job>
    var rows: map<string, Owner>
    var taken: map<Id, Taken>
    var prefix: Option<string>
    var next: nat

    constructor (config: Config)
      ensures View() == EMPTY && this.config == config
    {
      this.config := config;
      jobs, rows, taken, prefix, next := map[], map[], map[], None, 0;
    }

    ghost function View(): Tenant
      reads this
    {
      Tenant(jobs, rows, taken, prefix, next)
    }

    // SELECT ... ORDER BY created_at LIMIT 1 FOR UPDATE SKIP LOCKED: the oldest
    // job that can run and that no other transaction holds.
    method SelectJob(worker: Id) returns (selected: Option<Id>)
      requires worker !in taken
      modifies this`taken
      ensures selected.Some? ==>
        Enabled(old(View()), Take(worker, selected.value)) && View() == Step(config, old(View()), Take(worker, selected.value))
      ensures selected.None? ==>
        View() == old(View()) && forall k :: k in jobs && Runnable(jobs[k]) ==> Locked(old(View()), k)
    {
      var locked := set w | w in taken :: taken[w].id;
      ghost var t := View();
      var free := set k | k in jobs && Runnable(jobs[k]) && k !in locked;
      assert forall k :: k in jobs && Runnable(jobs[k]) && k !in free ==> Locked(t, k);
      if free == {} { return None; }
      var id := Least(free);
      assert forall k :: k in jobs && k < id && Runnable(jobs[k]) ==> k !in free;
      assert !Locked(t, id);
      taken := taken[worker := Taken(id, jobs[id])];
      selected := Some(id);
    }

    // The codes of generate_series(1, count), each from the count so far.
    method CodeSeries(id: Id, job: Job, count: nat) returns (codes: Result<seq<string>, Gs1Error>)
      ensures codes == CodesFrom(config, id, job, job.generated, count)
      ensures codes.Success? ==>
        |codes.value| == count && forall g :: 0 <= g < count ==> Says(config, id, job, job.generated + g, codes.value[g])
    {
      hide CodeAt, Says;
      var made: seq<string> := [];
      assert CodesFrom(config, id, job, job.generated, 0) == Success([]);
      for g := 1 to count + 1
        invariant CodesFrom(config, id, job, job.generated, g - 1) == Success(made)
      {
        var code := CodeAt(config, id, job, job.generated + g - 1);
        if code.Failure? {
          FailureStays(id, job, g, count);
          return Failure(InvalidInput);
        }
        made := made + [code.value];
      }
      codes := Success(made);
      SeriesSays(config, id, job, job.generated, count);
    }

    lemma {:induction false} FailureStays(id: Id, job: Job, g: nat, count: nat)
      requires 1 <= g <= count && CodeAt(config, id, job, job.generated + g - 1).Failure?
      ensures CodesFrom(config, id, job, job.generated, count) == Failure(InvalidInput)
      decreases count
    {
      hide CodeAt;
      if g < count { FailureStays(id, job, g, count - 1); }
    }

    static lemma InsertedNone(rows: map<string, Owner>)
      ensures Inserted(rows, []) == []
    {
    }

    static lemma InsertedOne(rows: map<string, Owner>, codes: seq<string>, i: nat, id: Id)
      requires i < |codes|
      ensures var before := Inserted(rows, codes[..i]);
        && (codes[i] in WithRows(rows, before, id) <==> codes[i] in rows || codes[i] in before)
        && Inserted(rows, codes[..i + 1]) == (if codes[i] in WithRows(rows, before, id) then before else before + [codes[i]])
        && WithRows(rows, before + [codes[i]], id) == WithRows(rows, before, id)[codes[i] := Made(id)]
    {
      assert codes[..i + 1][..i] == codes[..i];
    }

    // INSERT ... ON CONFLICT DO NOTHING RETURNING.
    method InsertRows(id: Id, codes: seq<string>) returns (inserted: seq<string>)
      modifies this`rows
      ensures inserted == Inserted(old(rows), codes)
      ensures rows == WithRows(old(rows), inserted, id)
    {
      inserted := [];
      assert rows == WithRows(rows, [], id);
      hide Inserted, WithRows;
      InsertedNone(old(rows));
      for i := 0 to |codes|
        invariant inserted == Inserted(old(rows), codes[..i])
        invariant rows == WithRows(old(rows), inserted, id)
      {
        InsertedOne(old(rows), codes, i, id);
        if codes[i] !in rows {
          rows := rows[codes[i] := Made(id)];
          inserted := inserted + [codes[i]];
        }
      }
      assert codes[..|codes|] == codes;
    }

    // The rest of the transaction. An error in a statement rolls it back.
    method RunTaken(worker: Id)
      requires worker in taken
      modifies this`jobs, this`rows, this`taken
      ensures View() == Step(config, old(View()), Commit(worker))
      ensures Inv(old(View())) ==> Inv(View())
    {
      hide Unfit, CodesFrom, Inserted, WithRows, Inv;
      ghost var t := View();
      var Taken(id, job) := taken[worker];
      taken := taken - {worker};
      if Unfit(job) {
        jobs := jobs[id := job.(status := Failed)];
      } else {
        var count := if job.generated < job.quantity then Min(job.quantity - job.generated, CHUNK) else 0;
        var codes := CodeSeries(id, job, count);
        if codes.Success? {
          var inserted := InsertRows(id, codes.value);
          var generated := job.generated + |inserted|;
          jobs := jobs[id := job.(generated := generated, issued := job.issued + inserted,
                                  status := if generated >= job.quantity then Completed else Running)];
        }
      }
      if Inv(t) { StepKeeps(config, t, Commit(worker)); }
    }
  }
}
