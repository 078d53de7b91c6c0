// Blocked jobs at the head of the queue: each occupies a worker whenever it is
// looked at, because a worker always takes the oldest job nobody holds. With
// as many of them as there are workers, no younger job is ever taken.
module CodeJobsStarvation {
  import opened Gs1CheckDigit
  import opened Gs1Path
  import opened Numbers
  import opened CodeJobs
  import opened CodeJobsInvariant
  import opened CodeJobsTheorems

  function OlderRunnable(t: Tenant, id: Id): set<Id> {
    set k | k in t.jobs && k < id && Runnable(t.jobs[k])
  }

  predicate Stuck(config: Config, t: Tenant, k: Id) {
    Fit(t, k) && Blocked(config, t, k)
  }

  function OlderBlocked(config: Config, t: Tenant, id: Id): set<Id> {
    set k | k in t.jobs && k < id && Stuck(config, t, k)
  }

  // Steps that keep to a pool of workers and cancel none of the given jobs.
  predicate Keeps(c: Command, pool: set<Id>, jobs: set<Id>) {
    && ((c.Take? || c.Commit? || c.Abort?) ==> c.worker in pool)
    && (c.Cancel? ==> c.id !in jobs)
  }

  predicate AllBlocked(config: Config, t: Tenant, jobs: set<Id>) {
    forall k :: k in jobs ==> Stuck(config, t, k)
  }

  /******* Starvation *******/

  lemma StaysRunnable(config: Config, t: Tenant, c: Command, k: Id)
    requires Inv(t) && k in t.jobs && Runnable(t.jobs[k]) && !OwnChunk(t, c, k) && c != Cancel(k)
    ensures k in Step(config, t, c).jobs && Runnable(Step(config, t, c).jobs[k])
  {
    if c.Commit? && c.worker in t.taken { HeldNow(t, c.worker); }
    hide Inv, Unfit, CodesFrom, Inserted, IsValidGs1X, IsNumber, Locked;
  }

  lemma StaysStuck(config: Config, t: Tenant, c: Command, k: Id)
    requires Inv(t) && Stuck(config, t, k) && c != Cancel(k)
    ensures Stuck(config, Step(config, t, c), k)
  {
    var t' := Step(config, t, c);
    BlockedStep(config, t, c, k);
    StepKeeps(config, t, c);
    InvOfJob(t', k);
    if OwnChunk(t, c, k) {
      ChunkOf(config, t, c.worker, k);
      hide Inv, Blocked, CodesFrom, Inserted;
    } else {
      StaysRunnable(config, t, c, k);
      OtherStep(config, t, c, k);
      hide Inv, Blocked, Step;
    }
  }

  // Every lock is one worker's.
  lemma {:induction false} LocksCount(taken: map<Id, Taken>, jobs: set<Id>)
    requires forall k :: k in jobs ==> exists w :: w in taken && taken[w].id == k
    ensures |jobs| <= |taken.Keys|
    decreases jobs
  {
    if jobs != {} {
      var k :| k in jobs;
      var w :| w in taken && taken[w].id == k;
      var fewer := taken - {w};
      forall j | j in jobs - {k} ensures exists v :: v in fewer && fewer[v].id == j {
        var v :| v in taken && taken[v].id == j;
        assert v in fewer && fewer[v].id == j;
      }
      LocksCount(fewer, jobs - {k});
      assert fewer.Keys == taken.Keys - {w};
    }
  }

  lemma {:induction false} SubsetSize(a: set<Id>, b: set<Id>)
    requires a <= b
    ensures |a| <= |b|
    decreases a
  {
    if a != {} {
      var x :| x in a;
      SubsetSize(a - {x}, b - {x});
    }
  }

  lemma StarvedStep(config: Config, t: Tenant, c: Command, pool: set<Id>, jobs: set<Id>, id: Id)
    requires Inv(t) && t.taken.Keys <= pool && Keeps(c, pool, jobs)
    requires AllBlocked(config, t, jobs) && (forall k :: k in jobs ==> k < id) && |jobs| >= |pool|
    requires !Locked(t, id)
    ensures !Locked(Step(config, t, c), id) && Step(config, t, c).taken.Keys <= pool
  {
    hide Inv, Unfit, RunChunk, IsValidGs1X, IsNumber, Blocked, DoApprove;
    if c.Take? && c.id == id && Enabled(t, c) {
      forall k | k in jobs ensures exists w :: w in t.taken && t.taken[w].id == k {
        assert Stuck(config, t, k) && Locked(t, k);
      }
      LocksCount(t.taken, jobs);
      SubsetSize(t.taken.Keys + {c.worker}, pool);
      assert false;
    } else {
      LocksOf(config, t, c);
    }
  }

  // No step but a Take adds a lock.
  lemma LocksOf(config: Config, t: Tenant, c: Command)
    ensures !c.Take? ==> forall w :: w in Step(config, t, c).taken ==> w in t.taken && Step(config, t, c).taken[w] == t.taken[w]
  {
    hide Unfit, CodesFrom, Inserted, IsValidGs1X, IsNumber, Locked;
  }

  // At least as many blocked jobs as workers: none that is younger is taken.
  lemma {:induction false} Starved(config: Config, t: Tenant, commands: seq<Command>, pool: set<Id>, jobs: set<Id>, id: Id)
    requires Inv(t) && t.taken.Keys <= pool && !Locked(t, id)
    requires AllBlocked(config, t, jobs) && (forall k :: k in jobs ==> k < id) && |jobs| >= |pool|
    requires forall i :: 0 <= i < |commands| ==> Keeps(commands[i], pool, jobs)
    ensures var t' := Run(config, t, commands);
      AllBlocked(config, t', jobs) && t'.taken.Keys <= pool && !Locked(t', id)
    decreases |commands|
  {
    hide Inv, Step, Locked, Stuck;
    if commands != [] {
      var before, c := commands[..|commands| - 1], commands[|commands| - 1];
      var u := Run(config, t, before);
      Starved(config, t, before, pool, jobs, id);
      RunKeeps(config, t, before);
      assert Keeps(c, pool, jobs);
      StarvedStep(config, u, c, pool, jobs, id);
      forall k | k in jobs ensures Stuck(config, Step(config, u, c), k) {
        assert Stuck(config, u, k);
        StaysStuck(config, u, c, k);
      }
    }
  }

  /******* Enough workers *******/

  function Unlocked(t: Tenant, id: Id): set<Id> {
    set k | k in OlderRunnable(t, id) && !Locked(t, k)
  }

  lemma SomeWorker(pool: set<Id>, busy: set<Id>) returns (w: Id)
    requires busy <= pool && |busy| < |pool|
    ensures w in pool && w !in busy
  {
    if pool - busy == {} {
      forall x | x in pool ensures x in busy { assert x !in pool - busy; }
      SubsetSize(pool, busy);
      assert false;
    }
    w :| w in pool - busy;
  }

  lemma TakeOldest(config: Config, t: Tenant, w: Id, k: Id, id: Id)
    requires w !in t.taken && k in Unlocked(t, id) && forall j :: j in Unlocked(t, id) ==> k <= j
    ensures Enabled(t, Take(w, k))
    ensures var t' := Step(config, t, Take(w, k));
      && t'.jobs == t.jobs && t'.taken.Keys == t.taken.Keys + {w} && Unlocked(t', id) == Unlocked(t, id) - {k}
  {
    forall j | j in t.jobs && j < k && Runnable(t.jobs[j]) ensures Locked(t, j) {
      assert j in OlderRunnable(t, id) && j !in Unlocked(t, id);
    }
    var t' := Step(config, t, Take(w, k));
    forall j ensures Locked(t', j) <==> Locked(t, j) || j == k {
      if Locked(t, j) {
        var v :| v in t.taken && t.taken[v].id == j;
        assert v in t'.taken && t'.taken[v].id == j;
      }
      if j == k { assert w in t'.taken && t'.taken[w].id == j; }
      if Locked(t', j) && j != k {
        var v :| v in t'.taken && t'.taken[v].id == j;
        assert v in t.taken && t.taken[v].id == j;
      }
    }
  }

  lemma TakeLast(config: Config, t: Tenant, w: Id, id: Id)
    requires w !in t.taken && id in t.jobs && Runnable(t.jobs[id]) && !Locked(t, id) && Unlocked(t, id) == {}
    ensures Enabled(t, Take(w, id)) && Locked(Step(config, t, Take(w, id)), id)
  {
    forall j | j in t.jobs && j < id && Runnable(t.jobs[j]) ensures Locked(t, j) {
      assert j in OlderRunnable(t, id) && j !in Unlocked(t, id);
    }
    var t' := Step(config, t, Take(w, id));
    assert w in t'.taken && t'.taken[w].id == id;
  }

  lemma OneMoreLock(t: Tenant, t': Tenant, w: Id, k: Id, id: Id)
    requires w !in t.taken && k in Unlocked(t, id)
    requires t'.taken.Keys == t.taken.Keys + {w} && Unlocked(t', id) == Unlocked(t, id) - {k}
    ensures |t'.taken.Keys| + |Unlocked(t', id)| == |t.taken.Keys| + |Unlocked(t, id)|
  {
  }

  // One worker after the other takes the oldest free job, the last one id.
  lemma {:induction false} EnoughWorkers(config: Config, t: Tenant, pool: set<Id>, id: Id) returns (commands: seq<Command>)
    requires t.taken.Keys <= pool && id in t.jobs && Runnable(t.jobs[id])
    requires |t.taken.Keys| + |Unlocked(t, id)| < |pool|
    ensures forall i :: 0 <= i < |commands| ==> commands[i].Take? && commands[i].worker in pool
    ensures Locked(Run(config, t, commands), id)
    decreases Unlocked(t, id)
  {
    hide Step, Locked, Runnable, Unlocked, Enabled;
    if Locked(t, id) {
      commands := [];
      return;
    }
    var w := SomeWorker(pool, t.taken.Keys);
    if Unlocked(t, id) == {} {
      TakeLast(config, t, w, id);
      commands := [Take(w, id)];
      RunOne(config, t, Take(w, id));
    } else {
      var k := Least(Unlocked(t, id));
      var t' := Step(config, t, Take(w, k));
      TakeOldest(config, t, w, k, id);
      OneMoreLock(t, t', w, k, id);
      var rest := EnoughWorkers(config, t', pool, id);
      commands := [Take(w, k)] + rest;
      RunJoins(config, t, [Take(w, k)], rest);
      RunOne(config, t, Take(w, k));
    }
  }

  // All transactions under way are rolled back.
  lemma {:induction false} ReleaseAll(config: Config, t: Tenant, pool: set<Id>) returns (commands: seq<Command>)
    requires t.taken.Keys <= pool
    ensures forall i :: 0 <= i < |commands| ==> commands[i].Abort? && commands[i].worker in pool
    ensures Run(config, t, commands) == t.(taken := map[])
    decreases t.taken.Keys
  {
    if t.taken.Keys == {} {
      assert t.taken == map[];
      commands := [];
    } else {
      var w :| w in t.taken.Keys;
      var rest := ReleaseAll(config, t.(taken := t.taken - {w}), pool);
      commands := [Abort(w)] + rest;
      RunJoins(config, t, [Abort(w)], rest);
      RunOne(config, t, Abort(w));
    }
  }

  // Every older job that can run is cancelled, except the given ones.
  lemma {:induction false} CancelOthers(config: Config, t: Tenant, jobs: set<Id>, id: Id) returns (commands: seq<Command>)
    requires t.taken == map[] && id in t.jobs && Runnable(t.jobs[id])
    ensures forall i :: 0 <= i < |commands| ==> commands[i].Cancel? && commands[i].id !in jobs
    ensures var t' := Run(config, t, commands);
      && t'.taken == map[] && id in t'.jobs && Runnable(t'.jobs[id]) && OlderRunnable(t', id) <= jobs
    decreases OlderRunnable(t, id) - jobs
  {
    var others := OlderRunnable(t, id) - jobs;
    if others == {} {
      forall k | k in OlderRunnable(t, id) ensures k in jobs { assert k !in others; }
      commands := [];
    } else {
      var k :| k in others;
      var t' := Step(config, t, Cancel(k));
      assert t' == t.(jobs := t.jobs[k := t.jobs[k].(status := Cancelled)]);
      assert OlderRunnable(t', id) == OlderRunnable(t, id) - {k};
      var rest := CancelOthers(config, t', jobs, id);
      commands := [Cancel(k)] + rest;
      RunJoins(config, t, [Cancel(k)], rest);
      RunOne(config, t, Cancel(k));
    }
  }

  // The locks are given up, the other older jobs cancelled, and the pool works
  // its way up to id.
  lemma ReachesIt(config: Config, t: Tenant, pool: set<Id>, jobs: set<Id>, id: Id) returns (commands: seq<Command>)
    requires t.taken.Keys <= pool && id in t.jobs && Runnable(t.jobs[id]) && |jobs| < |pool|
    ensures forall i :: 0 <= i < |commands| ==> Keeps(commands[i], pool, jobs)
    ensures Locked(Run(config, t, commands), id)
  {
    hide Run, Runnable;
    var released := ReleaseAll(config, t, pool);
    var t1 := t.(taken := map[]);
    var cancelled := CancelOthers(config, t1, jobs, id);
    var t2 := Run(config, t1, cancelled);
    SubsetSize(Unlocked(t2, id), jobs);
    var taken := EnoughWorkers(config, t2, pool, id);
    commands := released + cancelled + taken;
    RunJoins(config, t, released + cancelled, taken);
    RunJoins(config, t, released, cancelled);
  }

  // The exact condition: a job that nobody holds is taken in some run of the
  // pool that cancels none of the blocked jobs before it if and only if these
  // are fewer than the workers.
  lemma TakenIffEnoughWorkers(config: Config, t: Tenant, pool: set<Id>, id: Id)
    requires Inv(t) && t.taken.Keys <= pool && id in t.jobs && Runnable(t.jobs[id]) && !Locked(t, id)
    ensures (exists commands ::
               (forall i :: 0 <= i < |commands| ==> Keeps(commands[i], pool, OlderBlocked(config, t, id)))
               && Locked(Run(config, t, commands), id))
       <==> |OlderBlocked(config, t, id)| < |pool|
  {
    hide Inv, Run, Blocked, Step, Keeps, Locked;
    var jobs := OlderBlocked(config, t, id);
    if |jobs| < |pool| {
      var commands := ReachesIt(config, t, pool, jobs, id);
    } else {
      forall commands | forall i :: 0 <= i < |commands| ==> Keeps(commands[i], pool, jobs)
        ensures !Locked(Run(config, t, commands), id)
      {
        Starved(config, t, commands, pool, jobs, id);
      }
    }
  }
}
