// The rows of a job are exactly the codes of the indices it has counted: in
// every run for a job that has completed or is not blocked, whatever the other
// jobs are and whatever codes were added elsewhere.
module CodeJobsExact {
  import opened Wrappers
  import opened Gs1CheckDigit
  import opened Gs1Path
  import opened CodeJobs
  import opened CodeJobsInvariant
  import opened CodeJobsCodes
  import opened CodeJobsTheorems

  // The rows of the job, in order, are the codes of indices 0, 1, 2, ...
  predicate Clean(config: Config, t: Tenant, id: Id)
    requires id in t.jobs
  {
    var job := t.jobs[id];
    |job.issued| == job.generated
    && forall k :: 0 <= k < |job.issued| ==> CodeAt(config, id, job, k) == Success(job.issued[k])
  }

  // Every row of the job has the code of one of its indices.
  predicate Coded(config: Config, t: Tenant, id: Id)
    requires id in t.jobs
  {
    forall c :: c in t.jobs[id].issued ==> IndexOf(config, id, t.jobs[id], c)
  }

  predicate IndexOf(config: Config, id: Id, job: Job, code: string) {
    exists k :: 0 <= k < job.quantity && CodeAt(config, id, job, k) == Success(code)
  }

  /******* One step *******/

  lemma CleanCarries(config: Config, t: Tenant, id: Id, t': Tenant)
    requires id in t.jobs && id in t'.jobs && Clean(config, t, id)
    requires SameCodes(t'.jobs[id], t.jobs[id])
    requires t'.jobs[id].issued == t.jobs[id].issued && t'.jobs[id].generated == t.jobs[id].generated
    ensures Clean(config, t', id)
  {
    hide CodeAt;
    forall k | 0 <= k < |t'.jobs[id].issued| ensures CodeAt(config, id, t'.jobs[id], k) == Success(t'.jobs[id].issued[k]) {
      SameCodesSameCode(config, id, t.jobs[id], t'.jobs[id], k);
    }
  }

  lemma OwnChunkClean(config: Config, t: Tenant, w: Id, id: Id)
    requires Hash(config, {id}) && Inv(t) && w in t.taken && t.taken[w].id == id && Fit(t, id)
    requires Clean(config, t, id) && !Blocked(config, t, id)
    ensures id in RunChunk(config, t, w).jobs && Clean(config, RunChunk(config, t, w), id)
  {
    hide Inv, Unfit, CodesFrom, Inserted, CodeAt, Hash;
    var job := t.jobs[id];
    var n := Chunk(job);
    var t' := RunChunk(config, t, w);
    ChunkOf(config, t, w, id);
    FullProgress(config, t, w, id);
    assert Counted(t, id) by { InvOfJob(t, id); }
    FitChunkHasCodes(config, t, id, job.generated, n);
    var codes := CodesOf(config, id, job, job.generated, n);
    assert t'.jobs[id].issued == job.issued + codes;
    forall k | 0 <= k < |t'.jobs[id].issued| ensures CodeAt(config, id, t'.jobs[id], k) == Success(t'.jobs[id].issued[k]) {
      SameCodesSameCode(config, id, job, t'.jobs[id], k);
      if k >= job.generated {
        assert CodeAt(config, id, job, job.generated + (k - job.generated)) == Success(codes[k - job.generated]);
      }
    }
  }

  lemma PendingStep(config: Config, t: Tenant, c: Command, id: Id)
    requires Inv(t) && id in t.jobs && t.jobs[id].status == PendingApproval
    ensures var t' := Step(config, t, c);
      id in t'.jobs && t'.jobs[id].issued == [] && t'.jobs[id].generated == 0
  {
    InvOfJob(t, id);
    if c.Commit? && c.worker in t.taken { HeldNow(t, c.worker); }
    hide Inv, Unfit, CodesFrom, Inserted, IsValidGs1X, IsNumber, Locked;
  }

  lemma NewJob(config: Config, t: Tenant, c: Command, id: Id)
    requires Inv(t) && id !in t.jobs && id in Step(config, t, c).jobs
    ensures Step(config, t, c).jobs[id].issued == [] && Step(config, t, c).jobs[id].generated == 0
  {
    if c.Commit? && c.worker in t.taken { HeldNow(t, c.worker); }
    hide Inv, Unfit, CodesFrom, Inserted, IsValidGs1X, IsNumber, Locked;
  }

  lemma UnfitChunk(config: Config, t: Tenant, w: Id)
    requires w in t.taken && Unfit(t.taken[w].job)
    ensures RunChunk(config, t, w) == t.(taken := t.taken - {w}, jobs := t.jobs[t.taken[w].id := t.taken[w].job.(status := Failed)])
  {
  }

  // A job that is not blocked after a step was not blocked before it.
  lemma StepKeepsClean(config: Config, t: Tenant, c: Command, id: Id)
    requires Hash(config, {id}) && Inv(t) && id in Step(config, t, c).jobs && !Blocked(config, Step(config, t, c), id)
    requires id in t.jobs && !Blocked(config, t, id) ==> Clean(config, t, id)
    ensures Clean(config, Step(config, t, c), id)
  {
    hide Inv, Unfit, CodeAt, Hash, RunChunk, Blocked;
    if id !in t.jobs {
      NewJob(config, t, c, id);
    } else if t.jobs[id].status == PendingApproval {
      PendingStep(config, t, c, id);
    } else {
      if Blocked(config, t, id) {
        BlockedStep(config, t, c, id);
        assert false;
      }
      if OwnChunk(t, c, id) {
        HeldNow(t, c.worker);
        if Unfit(t.jobs[id]) {
          UnfitChunk(config, t, c.worker);
          CleanCarries(config, t, id, Step(config, t, c));
        } else {
          OwnChunkClean(config, t, c.worker, id);
        }
      } else {
        OtherStep(config, t, c, id);
        CleanCarries(config, t, id, Step(config, t, c));
      }
    }
  }

  lemma CodedCarries(config: Config, t: Tenant, id: Id, t': Tenant)
    requires id in t.jobs && id in t'.jobs && Coded(config, t, id)
    requires SameCodes(t'.jobs[id], t.jobs[id]) && t'.jobs[id].issued == t.jobs[id].issued
    ensures Coded(config, t', id)
  {
    hide CodeAt;
    forall c | c in t'.jobs[id].issued ensures IndexOf(config, id, t'.jobs[id], c) {
      SameIndexOf(config, id, t.jobs[id], t'.jobs[id], c);
    }
  }

  lemma SameIndexOf(config: Config, id: Id, a: Job, b: Job, code: string)
    requires SameCodes(a, b) && IndexOf(config, id, a, code)
    ensures IndexOf(config, id, b, code)
  {
    hide CodeAt;
    var k :| 0 <= k < a.quantity && CodeAt(config, id, a, k) == Success(code);
    SameCodesSameCode(config, id, a, b, k);
  }

  lemma OwnChunkCoded(config: Config, t: Tenant, w: Id, id: Id)
    requires Inv(t) && w in t.taken && t.taken[w].id == id && Fit(t, id) && Coded(config, t, id)
    ensures id in RunChunk(config, t, w).jobs && Coded(config, RunChunk(config, t, w), id)
  {
    hide Inv, Unfit, CodesFrom, Inserted, CodeAt, IndexOf;
    var job, t' := t.jobs[id], RunChunk(config, t, w);
    var n := Chunk(job);
    ChunkOf(config, t, w, id);
    assert Counted(t, id) by { InvOfJob(t, id); }
    FitChunkHasCodes(config, t, id, job.generated, n);
    var codes := CodesOf(config, id, job, job.generated, n);
    InsertedAreNew(t.rows, codes);
    forall c | c in t'.jobs[id].issued ensures IndexOf(config, id, t'.jobs[id], c) {
      if c !in job.issued {
        var k :| 0 <= k < |codes| && codes[k] == c;
        assert CodeAt(config, id, job, job.generated + k) == Success(c);
        IndexAt(config, id, job, job.generated + k);
      }
      SameIndexOf(config, id, job, t'.jobs[id], c);
    }
  }

  lemma IndexAt(config: Config, id: Id, job: Job, k: nat)
    requires k < job.quantity && CodeAt(config, id, job, k).Success?
    ensures IndexOf(config, id, job, CodeAt(config, id, job, k).value)
  {
    hide CodeAt;
  }

  lemma StepKeepsCoded(config: Config, t: Tenant, c: Command, id: Id)
    requires Inv(t) && id in Step(config, t, c).jobs && (id in t.jobs ==> Coded(config, t, id))
    ensures Coded(config, Step(config, t, c), id)
  {
    hide Inv, Unfit, CodeAt, RunChunk, IndexOf;
    if id !in t.jobs {
      NewJob(config, t, c, id);
    } else if t.jobs[id].status == PendingApproval {
      PendingStep(config, t, c, id);
    } else if OwnChunk(t, c, id) {
      HeldNow(t, c.worker);
      if Unfit(t.jobs[id]) {
        UnfitChunk(config, t, c.worker);
        CodedCarries(config, t, id, Step(config, t, c));
      } else {
        OwnChunkCoded(config, t, c.worker, id);
      }
    } else {
      OtherStep(config, t, c, id);
      CodedCarries(config, t, id, Step(config, t, c));
    }
  }

  /******* Every run *******/

  // However the workers interleave and whatever exists already: as long as a
  // job is not blocked, its rows are its first codes in order.
  lemma {:induction false} CleanUnlessBlocked(config: Config, commands: seq<Command>, id: Id)
    requires Hash(config, {id}) && id in Run(config, EMPTY, commands).jobs
    requires !Blocked(config, Run(config, EMPTY, commands), id)
    ensures Clean(config, Run(config, EMPTY, commands), id)
    decreases |commands|
  {
    hide Inv, Step, Hash, Clean, Blocked;
    if commands != [] {
      var before := commands[..|commands| - 1];
      var t := Run(config, EMPTY, before);
      EmptyInv();
      RunKeeps(config, EMPTY, before);
      if id in t.jobs && !Blocked(config, t, id) { CleanUnlessBlocked(config, before, id); }
      StepKeepsClean(config, t, commands[|commands| - 1], id);
    }
  }

  lemma EmptyInv()
    ensures Inv(EMPTY)
  {
  }

  // Once each.
  lemma RowsAreCounted(config: Config, t: Tenant, id: Id, code: string)
    requires Inv(t) && id in t.jobs && Clean(config, t, id)
    ensures (code in t.rows && t.rows[code] == Made(id)) <==>
      exists k :: 0 <= k < t.jobs[id].generated && CodeAt(config, id, t.jobs[id], k) == Success(code)
  {
    hide CodeAt;
    assert Counted(t, id);
    if code in t.rows && t.rows[code] == Made(id) {
      assert RowOwned(t, code);
      var k :| 0 <= k < |t.jobs[id].issued| && t.jobs[id].issued[k] == code;
    }
  }

  lemma RunRowsAreCounted(config: Config, commands: seq<Command>, id: Id, code: string)
    requires Hash(config, {id}) && id in Run(config, EMPTY, commands).jobs
    requires !Blocked(config, Run(config, EMPTY, commands), id)
    ensures var t := Run(config, EMPTY, commands);
      (code in t.rows && t.rows[code] == Made(id)) <==>
      exists k :: 0 <= k < t.jobs[id].generated && CodeAt(config, id, t.jobs[id], k) == Success(code)
  {
    hide Run, Hash, CodeAt, Inv, Blocked;
    CleanUnlessBlocked(config, commands, id);
    EmptyInv();
    RunKeeps(config, EMPTY, commands);
    RowsAreCounted(config, Run(config, EMPTY, commands), id, code);
  }

  lemma {:induction false} RunIsCoded(config: Config, commands: seq<Command>, id: Id)
    requires id in Run(config, EMPTY, commands).jobs
    ensures Coded(config, Run(config, EMPTY, commands), id)
    decreases |commands|
  {
    hide Inv, Step, Coded;
    if commands != [] {
      var before := commands[..|commands| - 1];
      var t := Run(config, EMPTY, before);
      EmptyInv();
      RunKeeps(config, EMPTY, before);
      if id in t.jobs { RunIsCoded(config, before, id); }
      StepKeepsCoded(config, t, commands[|commands| - 1], id);
    }
  }

  /******* Completed jobs *******/

  // As many different codes as indices leave no index out.
  lemma {:induction false} CodesNeedIndices(config: Config, id: Id, job: Job, codes: set<string>, indices: set<nat>)
    requires forall c :: c in codes ==> exists k :: k in indices && CodeAt(config, id, job, k) == Success(c)
    ensures |codes| <= |indices|
    decreases codes
  {
    hide CodeAt;
    if codes != {} {
      var c :| c in codes;
      var k :| k in indices && CodeAt(config, id, job, k) == Success(c);
      forall d | d in codes - {c} ensures exists j :: j in indices - {k} && CodeAt(config, id, job, j) == Success(d) {
        var j :| j in indices && CodeAt(config, id, job, j) == Success(d);
        assert j in indices - {k};
      }
      CodesNeedIndices(config, id, job, codes - {c}, indices - {k});
    }
  }

  function Below(n: nat): (s: set<nat>)
    ensures |s| == n && forall k: nat :: k in s <==> k < n
  {
    if n == 0 then {} else Below(n - 1) + {n - 1}
  }

  lemma {:induction false} DistinctSize(codes: seq<string>)
    requires Distinct(codes)
    ensures |(set c | c in codes)| == |codes|
    decreases |codes|
  {
    if codes != [] {
      var before, last := codes[..|codes| - 1], codes[|codes| - 1];
      DistinctSize(before);
      assert (set c | c in codes) == (set c | c in before) + {last};
      assert last !in before;
    }
  }

  lemma AllIssued(config: Config, t: Tenant, id: Id, k: nat)
    requires id in t.jobs && Coded(config, t, id) && Distinct(t.jobs[id].issued)
    requires |t.jobs[id].issued| == t.jobs[id].quantity && k < t.jobs[id].quantity
    ensures CodeAt(config, id, t.jobs[id], k).Success? && CodeAt(config, id, t.jobs[id], k).value in t.jobs[id].issued
  {
    hide CodeAt, Below;
    var job := t.jobs[id];
    if !(CodeAt(config, id, job, k).Success? && CodeAt(config, id, job, k).value in job.issued) {
      var codes := set c | c in job.issued;
      DistinctSize(job.issued);
      forall c | c in codes ensures exists j :: j in Below(job.quantity) - {k} && CodeAt(config, id, job, j) == Success(c) {
        assert IndexOf(config, id, job, c);
        var j :| 0 <= j < job.quantity && CodeAt(config, id, job, j) == Success(c);
        assert j in Below(job.quantity) - {k};
      }
      CodesNeedIndices(config, id, job, codes, Below(job.quantity) - {k});
      assert false;
    }
  }

  // In every run, with any hash, other jobs of its series and codes from
  // elsewhere included: the rows of a job that has completed are exactly the
  // codes of all its indices.
  lemma CompletedRowsAreAll(config: Config, commands: seq<Command>, id: Id, code: string)
    requires id in Run(config, EMPTY, commands).jobs && Run(config, EMPTY, commands).jobs[id].status == Completed
    ensures var t := Run(config, EMPTY, commands);
      (code in t.rows && t.rows[code] == Made(id)) <==>
      exists k :: 0 <= k < t.jobs[id].quantity && CodeAt(config, id, t.jobs[id], k) == Success(code)
  {
    hide Run, CodeAt, Inv;
    var t := Run(config, EMPTY, commands);
    EmptyInv();
    RunKeeps(config, EMPTY, commands);
    RunIsCoded(config, commands, id);
    InvOfJob(t, id);
    if code in t.rows && t.rows[code] == Made(id) {
      RowIsIssued(t, code);
      assert IndexOf(config, id, t.jobs[id], code);
    }
    forall k | 0 <= k < t.jobs[id].quantity && CodeAt(config, id, t.jobs[id], k) == Success(code)
      ensures code in t.rows && t.rows[code] == Made(id)
    {
      AllIssued(config, t, id, k);
    }
  }

  lemma RowIsIssued(t: Tenant, code: string)
    requires Inv(t) && code in t.rows && t.rows[code].Made?
    ensures t.rows[code].job in t.jobs && code in t.jobs[t.rows[code].job].issued
  {
    assert RowOwned(t, code);
  }

  /******* Container keys *******/

  lemma Pairwise(t: Tenant, a: Id, b: Id)
    requires Inv(t) && a in t.jobs && b in t.jobs
    ensures a != b ==> Apart(t.jobs[a], t.jobs[b])
    ensures t.jobs[a].sscc.Some? && t.jobs[b].sscc.Some? ==> t.jobs[a].sscc.value.prefix == t.jobs[b].sscc.value.prefix
  {
    InvOfJob(t, a);
    InvOfJob(t, b);
  }

  // Reserved references never meet: any two keys of approved pallet jobs differ.
  lemma ContainerKeysDiffer(t: Tenant, a: Id, i: nat, b: Id, k: nat)
    requires Inv(t) && a in t.jobs && b in t.jobs && t.jobs[a].sscc.Some? && t.jobs[b].sscc.Some?
    requires i < t.jobs[a].quantity && k < t.jobs[b].quantity && (a != b || i != k)
    ensures var x, y := t.jobs[a].sscc.value, t.jobs[b].sscc.value;
      && BuildSscc(x.prefix, EXTENSION, x.start + i).Success?
      && BuildSscc(y.prefix, EXTENSION, y.start + k).Success?
      && BuildSscc(x.prefix, EXTENSION, x.start + i) != BuildSscc(y.prefix, EXTENSION, y.start + k)
  {
    InvOfJob(t, a);
    InvOfJob(t, b);
    Pairwise(t, a, b);
    hide Inv, Pow10, WeightedSum, SsccBody, ToString;
    var x, y := t.jobs[a].sscc.value, t.jobs[b].sscc.value;
    if BuildSscc(x.prefix, EXTENSION, x.start + i) == BuildSscc(y.prefix, EXTENSION, y.start + k) {
      SsccIsInjective(x.prefix, EXTENSION, x.start + i, y.prefix, EXTENSION, y.start + k);
      assert false;
    }
  }
}
