// The invariant of code generation holds in every run, whatever the order in
// which workers and administrators act and whatever codes exist already.
//
// The invariant is a conjunction of facts about one job, one pair of jobs, one
// row and one lock each. Every lemma below names the facts that a transaction
// touches and carries the others over unchanged: rewriting a job, creating one,
// approving one with or without an interval of references, taking one, and
// committing a chunk.
module CodeJobsInvariant {
  import opened Wrappers
  import opened Gs1CheckDigit
  import opened Gs1Path
  import opened CodeJobs

  // Rewriting one unlocked job that keeps its rows.
  lemma RewriteKeeps(t: Tenant, id: Id, job: Job)
    requires Inv(t) && id in t.jobs && !Locked(t, id)
    requires job.issued == t.jobs[id].issued && job.quantity == t.jobs[id].quantity && job.sscc == t.jobs[id].sscc
    requires Counted(t.(jobs := t.jobs[id := job]), id) && Reserved(t.(jobs := t.jobs[id := job]), id)
    ensures Inv(t.(jobs := t.jobs[id := job]))
  {
    var t' := t.(jobs := t.jobs[id := job]);
    forall k | k in t'.jobs ensures Counted(t', k) && Reserved(t', k) {
      assert Counted(t, k) && Reserved(t, k);
    }
    forall a, b | a in t'.jobs && b in t'.jobs && a != b ensures Apart(t'.jobs[a], t'.jobs[b]) {
      assert Apart(t.jobs[a], t.jobs[b]);
    }
    forall code | code in t'.rows ensures RowOwned(t', code) { assert RowOwned(t, code); }
    forall w | w in t'.taken ensures Held(t', w) { assert Held(t, w); }
  }

  lemma StatusChangeKeeps(t: Tenant, id: Id, status: JobStatus)
    requires Inv(t) && id in t.jobs && !Locked(t, id)
    requires t.jobs[id].status != Completed && status != Completed && status != PendingApproval
    requires status == Cancelled || (t.jobs[id].status != PendingApproval && t.jobs[id].status != Cancelled)
    ensures Inv(t.(jobs := t.jobs[id := t.jobs[id].(status := status)]))
  {
    hide Inv;
    assert Counted(t, id) && Reserved(t, id) by { InvOfJob(t, id); }
    RewriteKeeps(t, id, t.jobs[id].(status := status));
  }

  lemma InvOfJob(t: Tenant, id: Id)
    requires Inv(t) && id in t.jobs
    ensures Counted(t, id) && Reserved(t, id) && PrefixOk(t)
  {
  }

  lemma UntakenIsUnlocked(t: Tenant, id: Id)
    requires Inv(t) && id in t.jobs && !Runnable(t.jobs[id])
    ensures !Locked(t, id)
  {
    forall w | w in t.taken ensures t.taken[w].id != id { assert Held(t, w); }
  }

  lemma CreateKeeps(t: Tenant, id: Id, job: Job)
    requires Inv(t) && id !in t.jobs
    requires 0 < job.quantity <= MAX_QUANTITY && job.generated == 0 && job.issued == []
    requires job.status == PendingApproval && job.sscc == None
    ensures Inv(t.(jobs := t.jobs[id := job]))
  {
    var t' := t.(jobs := t.jobs[id := job]);
    forall k | k in t'.jobs ensures Counted(t', k) && Reserved(t', k) {
      if k != id { assert Counted(t, k) && Reserved(t, k); }
    }
    forall a, b | a in t'.jobs && b in t'.jobs && a != b ensures Apart(t'.jobs[a], t'.jobs[b]) {
      if a != id && b != id { assert Apart(t.jobs[a], t.jobs[b]); }
    }
    forall code | code in t'.rows ensures RowOwned(t', code) { assert RowOwned(t, code); }
    forall w | w in t'.taken ensures Held(t', w) { assert Held(t, w); }
  }

  lemma SetPrefixKeeps(t: Tenant, p: string)
    requires Inv(t) && Enabled(t, SetPrefix(p))
    ensures Inv(t.(prefix := Some(p)))
  {
    var t' := t.(prefix := Some(p));
    forall k | k in t'.jobs ensures Counted(t', k) && Reserved(t', k) {
      assert Counted(t, k) && Reserved(t, k);
    }
    forall code | code in t'.rows ensures RowOwned(t', code) { assert RowOwned(t, code); }
    forall w | w in t'.taken ensures Held(t', w) { assert Held(t, w); }
  }

  lemma NewIsApart(t: Tenant, k: Id, job: Job)
    requires k in t.jobs && Reserved(t, k) && job.sscc.Some? && job.sscc.value.start == t.next
    ensures Apart(t.jobs[k], job) && Apart(job, t.jobs[k])
  {
  }

  // The tables after an approval that took the next interval.
  function WithInterval(t: Tenant, id: Id, prefix: string): Tenant
    requires id in t.jobs
  {
    t.(next := t.next + t.jobs[id].quantity,
       jobs := t.jobs[id := t.jobs[id].(status := Queued, sscc := Some(Allocation(prefix, t.next)))])
  }

  lemma IntervalKeepsJob(t: Tenant, id: Id, prefix: string, k: Id)
    requires id in t.jobs && k in t.jobs && Counted(t, id) && Counted(t, k) && Reserved(t, k)
    requires t.jobs[id].status == PendingApproval && t.jobs[id].scheme == Sscc && t.prefix == Some(prefix)
    ensures Counted(WithInterval(t, id, prefix), k) && Reserved(WithInterval(t, id, prefix), k)
  {
  }

  lemma ReserveKeeps(t: Tenant, id: Id)
    requires Inv(t) && id in t.jobs && t.jobs[id].status == PendingApproval && t.jobs[id].scheme == Sscc
    requires t.prefix.Some? && t.next + t.jobs[id].quantity <= Pow10(16 - |t.prefix.value|)
    ensures Inv(WithInterval(t, id, t.prefix.value))
  {
    var t' := WithInterval(t, id, t.prefix.value);
    UntakenIsUnlocked(t, id);
    hide Counted, Reserved, Apart, Pow10;
    forall k | k in t'.jobs ensures Counted(t', k) && Reserved(t', k) {
      assert Counted(t, k) && Reserved(t, k) && Counted(t, id);
      IntervalKeepsJob(t, id, t.prefix.value, k);
    }
    forall a, b | a in t'.jobs && b in t'.jobs && a != b ensures Apart(t'.jobs[a], t'.jobs[b]) {
      if a != id && b != id {
        assert Apart(t.jobs[a], t.jobs[b]);
      } else {
        var k := if a == id then b else a;
        assert Reserved(t, k);
        NewIsApart(t, k, t'.jobs[id]);
      }
    }
    forall code | code in t'.rows ensures RowOwned(t', code) { assert RowOwned(t, code); }
    forall w | w in t'.taken ensures Held(t', w) { assert Held(t, w); }
  }

  lemma ApproveKeeps(t: Tenant, id: Id)
    requires Inv(t) && id in t.jobs
    ensures Inv(DoApprove(t, id))
  {
    hide Inv;
    InvOfJob(t, id);
    var job := t.jobs[id];
    if job.status == PendingApproval {
      UntakenIsUnlocked(t, id);
      if job.scheme == Sgtin {
        RewriteKeeps(t, id, job.(status := Queued));
      } else if job.scheme == Sscc && DoApprove(t, id) != t {
        ReserveKeeps(t, id);
      }
    }
  }

  lemma TakeKeeps(t: Tenant, w: Id, id: Id)
    requires Inv(t) && Enabled(t, Take(w, id))
    ensures Inv(t.(taken := t.taken[w := Taken(id, t.jobs[id])]))
  {
    var t' := t.(taken := t.taken[w := Taken(id, t.jobs[id])]);
    forall k | k in t'.jobs ensures Counted(t', k) && Reserved(t', k) {
      assert Counted(t, k) && Reserved(t, k);
    }
    forall code | code in t'.rows ensures RowOwned(t', code) { assert RowOwned(t, code); }
    forall v | v in t'.taken ensures Held(t', v) { if v != w { assert Held(t, v); } }
  }

  // Ending a transaction frees the job it held and no other.
  lemma ReleaseKeeps(t: Tenant, w: Id)
    requires Inv(t) && w in t.taken
    ensures Inv(t.(taken := t.taken - {w}))
    ensures t.taken[w].id in t.jobs && t.jobs[t.taken[w].id] == t.taken[w].job && Runnable(t.taken[w].job)
    ensures !Locked(t.(taken := t.taken - {w}), t.taken[w].id)
  {
    var t' := t.(taken := t.taken - {w});
    assert Held(t, w);
    forall k | k in t'.jobs ensures Counted(t', k) && Reserved(t', k) {
      assert Counted(t, k) && Reserved(t, k);
    }
    forall code | code in t'.rows ensures RowOwned(t', code) { assert RowOwned(t, code); }
    forall v | v in t'.taken ensures Held(t', v) { assert Held(t, v); }
  }

  lemma InsertKeeps(t: Tenant, code: string)
    requires Inv(t) && code !in t.rows
    ensures Inv(t.(rows := t.rows[code := Foreign]))
  {
    var t' := t.(rows := t.rows[code := Foreign]);
    forall k | k in t'.jobs ensures Counted(t', k) && Reserved(t', k) {
      assert Counted(t, k) && Reserved(t, k);
    }
    forall c | c in t'.rows ensures RowOwned(t', c) { if c != code { assert RowOwned(t, c); } }
    forall w | w in t'.taken ensures Held(t', w) { assert Held(t, w); }
  }

  predicate Distinct(codes: seq<string>) {
    forall k, l :: 0 <= k < l < |codes| ==> codes[k] != codes[l]
  }

  predicate Absent(rows: map<string, Owner>, codes: seq<string>) {
    forall k :: 0 <= k < |codes| ==> codes[k] !in rows
  }

  lemma {:induction false} InsertedAreNew(rows: map<string, Owner>, codes: seq<string>)
    ensures Distinct(Inserted(rows, codes)) && Absent(rows, Inserted(rows, codes))
    ensures forall c :: c in Inserted(rows, codes) ==> c in codes
    decreases |codes|
  {
    if codes != [] { InsertedAreNew(rows, codes[..|codes| - 1]); }
  }

  lemma AdvanceKeeps(t: Tenant, id: Id, inserted: seq<string>)
    requires Inv(t) && id in t.jobs && !Locked(t, id) && Runnable(t.jobs[id])
    requires Distinct(inserted) && Absent(t.rows, inserted)
    requires t.jobs[id].generated + |inserted| <= t.jobs[id].quantity
    ensures Inv(t.(rows := WithRows(t.rows, inserted, id), jobs := t.jobs[id := Advanced(t.jobs[id], inserted)]))
  {
    var job := Advanced(t.jobs[id], inserted);
    var t' := t.(rows := WithRows(t.rows, inserted, id), jobs := t.jobs[id := job]);
    forall k | k in t'.jobs ensures Counted(t', k) && Reserved(t', k) {
      AdvanceCounts(t, id, inserted, k);
      assert Reserved(t, k);
    }
    forall a, b | a in t'.jobs && b in t'.jobs && a != b ensures Apart(t'.jobs[a], t'.jobs[b]) {
      assert Apart(t.jobs[a], t.jobs[b]);
    }
    forall code | code in t'.rows ensures RowOwned(t', code) {
      if code in t.rows { assert RowOwned(t, code); }
    }
    forall w | w in t'.taken ensures Held(t', w) { assert Held(t, w); }
  }

  lemma AdvanceCounts(t: Tenant, id: Id, inserted: seq<string>, k: Id)
    requires id in t.jobs && k in t.jobs && Counted(t, id) && Counted(t, k) && Runnable(t.jobs[id])
    requires Distinct(inserted) && Absent(t.rows, inserted)
    requires t.jobs[id].generated + |inserted| <= t.jobs[id].quantity
    ensures Counted(t.(rows := WithRows(t.rows, inserted, id), jobs := t.jobs[id := Advanced(t.jobs[id], inserted)]), k)
  {
  }

  lemma CommitKeeps(config: Config, t: Tenant, w: Id)
    requires Inv(t) && w in t.taken
    ensures Inv(RunChunk(config, t, w))
  {
    hide Inv, CodesFrom, Unfit;
    var id, job := t.taken[w].id, t.taken[w].job;
    var released := t.(taken := t.taken - {w});
    ReleaseKeeps(t, w);
    InvOfJob(t, id);
    if Unfit(job) {
      StatusChangeKeeps(released, id, Failed);
    } else {
      var codes := CodesFrom(config, id, job, job.generated, Chunk(job));
      if codes.Success? {
        CodesCount(config, id, job, job.generated, Chunk(job));
        InsertedAreNew(t.rows, codes.value);
        AdvanceKeeps(released, id, Inserted(t.rows, codes.value));
      }
    }
  }

  lemma {:induction false} CodesCount(config: Config, id: Id, job: Job, index: nat, n: nat)
    ensures CodesFrom(config, id, job, index, n).Success? ==> |CodesFrom(config, id, job, index, n).value| == n
    decreases n
  {
    hide CodeAt;
    if n > 0 { CodesCount(config, id, job, index, n - 1); }
  }

  lemma StepKeeps(config: Config, t: Tenant, c: Command)
    requires Inv(t)
    ensures Inv(Step(config, t, c))
  {
    hide Inv, DoApprove, RunChunk, IsValidGs1X, IsNumber;
    if Enabled(t, c) {
      match c
      case Create(id, scheme, gtin, lot, rule, quantity) =>
        CreateKeeps(t, id, Job(scheme, gtin, lot, rule, quantity, 0, PendingApproval, None, []));
      case SetPrefix(p) => SetPrefixKeeps(t, p);
      case Approve(id) => ApproveKeeps(t, id);
      case Take(w, id) => TakeKeeps(t, w, id);
      case Commit(w) => CommitKeeps(config, t, w);
      case Abort(w) => ReleaseKeeps(t, w);
      case Cancel(id) => StatusChangeKeeps(t, id, Cancelled);
      case Retry(id) =>
        UntakenIsUnlocked(t, id);
        StatusChangeKeeps(t, id, Queued);
      case Insert(code) => InsertKeeps(t, code);
    }
  }

  lemma {:induction false} RunKeeps(config: Config, t: Tenant, commands: seq<Command>)
    requires Inv(t)
    ensures Inv(Run(config, t, commands))
    decreases |commands|
  {
    if commands != [] {
      RunKeeps(config, t, commands[..|commands| - 1]);
      StepKeeps(config, Run(config, t, commands[..|commands| - 1]), commands[|commands| - 1]);
    }
  }
}
