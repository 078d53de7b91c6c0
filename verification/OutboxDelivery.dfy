// What the outbox does with a row: when it can be claimed again after every
// kind of outcome, and that it is processed by the recorded deliveries, once
// and for all.
module OutboxDelivery {
  import opened Wrappers
  import opened Numbers
  import opened Outbox
  import opened OutboxReplay

  /******* After each outcome *******/

  // A row just added can be claimed at once, and a claimed one by others after
  // five minutes.
  lemma AfterAdd(s: State, id: Id, deliverable: bool, later: nat)
    requires id !in s.rows && later >= s.now
    ensures var row := Step(s, Add(id, deliverable)).rows[id];
      Claimable(row, later) && row.attempts == 0 && row.deliverable == deliverable
  {
  }

  lemma AfterClaim(s: State, w: Id, id: Id, later: nat)
    requires Enabled(s, Claim(w, id)) && later >= s.now
    ensures var s' := Step(s, Claim(w, id));
      && s'.workers[w] == Worker(id, s.now, false) && s'.rows[id].attempts == s.rows[id].attempts
      && (Claimable(s'.rows[id], later) <==> later > s.now + 300_000_000)
  {
  }

  // After the n-th failure, n below ten, the row waits two to the n seconds;
  // after the tenth it is dead and is not claimed any more.
  lemma AfterFailure(s: State, w: Id, later: nat)
    requires Inv(s) && Enabled(s, Fail(w))
    ensures var id := s.workers[w].row; var s' := Step(s, Fail(w)); var n := s'.rows[id].attempts;
      && w !in s'.workers && n == s.rows[id].attempts + 1 <= 10
      && (s'.rows[id].deadAt.Some? <==> n == 10)
      && (Claimable(s'.rows[id], later) <==> n < 10 && later >= s.now + Pow2(n) * 1_000_000)
  {
    OwnedRow(s, w);
    var n := s.rows[s.workers[w].row].attempts + 1;
    BackoffIsPower(n);
    hide Backoff, Pow2;
  }

  // A dead row that is replayed can be claimed at once, with no failures.
  lemma AfterReplay(s: State, id: Id, later: nat)
    requires id in s.rows && s.rows[id].processedAt.None? && later >= s.now
    ensures var row := Step(s, Replay(id)).rows[id];
      Claimable(row, later) && row.attempts == 0 && row.deadAt == None
  {
  }

  // A delivery that is recorded ends the worker's part and the row's.
  lemma AfterDone(s: State, w: Id, later: nat)
    requires Enabled(s, Done(w))
    ensures var id := s.workers[w].row; var s' := Step(s, Done(w));
      w !in s'.workers && s'.rows[id].processedAt == Some(s.now) && !Claimable(s'.rows[id], later)
  {
  }

  // An accepted document alone, a crash and the clock leave every row; the
  // worker remembers that the document was accepted.
  lemma RowsLeftAlone(s: State, e: Event)
    requires e.Capture? || e.Crash? || e.Tick?
    ensures Step(s, e).rows == s.rows
    ensures e.Capture? && Enabled(s, e) ==>
      Step(s, e).workers == s.workers[e.worker := Worker(s.workers[e.worker].row, s.workers[e.worker].claimedAt, true)]
    ensures e.Crash? ==> e.worker !in Step(s, e).workers
    ensures e.Tick? ==> Step(s, e).now == s.now + e.elapsed
  {
  }

  // And no event touches a row it is not about.
  lemma OtherRows(s: State, e: Event, id: Id)
    requires id in s.rows
    requires (e.Claim? || e.Replay?) ==> e.id != id
    requires (e.Done? || e.Fail?) && e.worker in s.workers ==> s.workers[e.worker].row != id
    ensures id in Step(s, e).rows && Step(s, e).rows[id] == s.rows[id]
  {
    hide Failed, Replayed, Claimable;
  }

  /******* Over whole runs *******/

  // Recorded deliveries of a row.
  function DeliveriesOf(actions: seq<Action>, id: Id): nat
    decreases |actions|
  {
    if actions == [] then 0 else
    var before, a := DeliveriesOf(actions[..|actions| - 1], id), actions[|actions| - 1];
    var s := RunOf(START, actions[..|actions| - 1]).s;
    if a.Outbox? && a.e.Done? && Enabled(s, a.e) && s.workers[a.e.worker].row == id then before + 1 else before
  }

  // In every run: a row is processed if and only if a delivery of it has been
  // recorded.
  lemma {:induction false} ProcessedIffDelivered(actions: seq<Action>, id: Id)
    ensures var s := RunOf(START, actions).s;
      id in s.rows && s.rows[id].processedAt.Some? <==> DeliveriesOf(actions, id) > 0
    ensures id !in RunOf(START, actions).s.rows ==> DeliveriesOf(actions, id) == 0
    decreases |actions|
  {
    hide Claimable, Backoff, Dead, MayFile;
    if actions != [] { ProcessedIffDelivered(actions[..|actions| - 1], id); }
  }

  lemma ProcessedStep(y: System, a: Action, id: Id)
    requires id in y.s.rows && y.s.rows[id].processedAt.Some?
    ensures id in Act(y, a).s.rows && Act(y, a).s.rows[id].processedAt.Some?
  {
    hide Claimable, Backoff, Dead, MayFile;
  }

  // From then on, in every further run, nobody can claim it.
  lemma {:induction false} ProcessedForever(y: System, further: seq<Action>, w: Id, id: Id)
    requires id in y.s.rows && y.s.rows[id].processedAt.Some?
    ensures var z := RunOf(y, further);
      id in z.s.rows && z.s.rows[id].processedAt.Some? && !Enabled(z.s, Claim(w, id))
    decreases |further|
  {
    hide Act;
    if further != [] {
      ProcessedForever(y, further[..|further| - 1], w, id);
      ProcessedStep(RunOf(y, further[..|further| - 1]), further[|further| - 1], id);
    }
  }

  lemma DeliveredIsFinal(actions: seq<Action>, further: seq<Action>, w: Id, id: Id)
    requires DeliveriesOf(actions, id) > 0
    ensures !Enabled(RunOf(START, actions + further).s, Claim(w, id))
  {
    hide RunOf, DeliveriesOf;
    ProcessedIffDelivered(actions, id);
    RunJoins(START, actions, further);
    ProcessedForever(RunOf(START, actions), further, w, id);
  }

  // A dead row, too, is claimed only after an approved replay of it.
  lemma {:induction false} DeadUntilReplayed(y: System, further: seq<Action>, w: Id, id: Id)
    requires Inv(y.s) && UndisturbedRun(y, further) && Dead(y.s, id)
    requires forall k :: 0 <= k < |further| && further[k].Decide? && further[k].approve ==>
      !(further[k].request in RunOf(y, further[..k]).requests && RunOf(y, further[..k]).requests[further[k].request].row == id)
    ensures var z := RunOf(y, further);
      Inv(z.s) && Dead(z.s, id) && !Enabled(z.s, Claim(w, id))
    decreases |further|
  {
    hide Inv, Act, Undisturbed;
    if further != [] {
      var before, a := further[..|further| - 1], further[|further| - 1];
      var z := RunOf(y, before);
      forall k | 0 <= k < |before| && before[k].Decide? && before[k].approve
        ensures !(before[k].request in RunOf(y, before[..k]).requests && RunOf(y, before[..k]).requests[before[k].request].row == id)
      {
        assert before[..k] == further[..k];
      }
      DeadUntilReplayed(y, before, w, id);
      UndisturbedStep(z, a);
      DeadStep(z, a, id);
    }
  }

  lemma DeadStep(y: System, a: Action, id: Id)
    requires Inv(y.s) && Dead(y.s, id)
    requires a.Decide? && a.approve ==> !(a.request in y.requests && y.requests[a.request].row == id)
    ensures Dead(Act(y, a).s, id)
  {
    hide Inv, Step, MayFile;
    if Possible(y, a) {
      if a.Outbox? {
        DeadStaysDead(y.s, a.e, id);
      } else if a.Decide? && a.approve {
        OtherRowStays(y.s, y.requests[a.request].row, id);
      }
    }
  }

  /******* Requests *******/

  // A request is accepted for a dead row that has no pending one, whatever
  // became of earlier ones, and waits for a decision.
  lemma FilingIs(y: System, r: Id, id: Id)
    requires r !in y.requests
    ensures Possible(y, Create(r, id)) <==>
      && id in y.s.rows && y.s.rows[id].deadAt.Some? && y.s.rows[id].processedAt.None?
      && forall q :: q in y.requests && y.requests[q].row == id ==> y.requests[q].status != Pending
    ensures Possible(y, Create(r, id)) ==> Act(y, Create(r, id)) == y.(requests := y.requests[r := ReplayRequest(id, Pending)])
  {
    forall q | q in y.requests && y.requests[q].row == id && y.requests[q].status == Pending ensures HasPending(y.requests, id) {
      assert y.requests[q] == ReplayRequest(id, Pending);
    }
    hide Step;
  }

  // A decision is taken once: whatever happens, a request that is not pending
  // stays as it was decided.
  lemma {:induction false} DecidedOnce(y: System, further: seq<Action>, r: Id)
    requires r in y.requests && y.requests[r].status != Pending
    ensures var z := RunOf(y, further); r in z.requests && z.requests[r] == y.requests[r]
    decreases |further|
  {
    hide Step, Dead;
    if further != [] { DecidedOnce(y, further[..|further| - 1], r); }
  }

  lemma AfterDecision(y: System, r: Id, approve: bool)
    requires Possible(y, Decide(r, approve))
    ensures var z := Act(y, Decide(r, approve));
      && z.requests[r] == ReplayRequest(y.requests[r].row, if approve then Approved else Rejected)
      && z.s == if approve then Step(y.s, Replay(y.requests[r].row)) else y.s
  {
    hide Step;
  }
}
