// The outbox worker statement by statement over the table it updates in
// place; every method is one or two steps of the lease protocol.
module OutboxWorker {
  import opened Wrappers
  import opened Outbox
  import opened Numbers

  class Database {
    var rows: map<Id, Row>
    var workers: map<Id, Worker>
    var now: nat

    constructor ()
      ensures View() == EMPTY
    {
      rows, workers, now := map[], map[], 0;
    }

    ghost function View(): State
      reads this
    {
      State(rows, workers, now)
    }

    // claimOutboxEvent: the oldest row that can be claimed, if there is one.
    method ClaimOutboxEvent(w: Id) returns (claimed: Option<Id>)
      requires w !in workers
      modifies this`rows, this`workers
      ensures claimed.Some? ==>
        && Enabled(old(View()), Claim(w, claimed.value)) && View() == Step(old(View()), Claim(w, claimed.value))
        && forall k :: k in old(rows) && Claimable(old(rows)[k], now) ==> claimed.value <= k
      ensures claimed.None? ==>
        View() == old(View()) && forall k :: k in rows ==> !Claimable(rows[k], now)
      ensures Inv(old(View())) && Timely(old(View())) ==> Inv(View())
    {
      ghost var s := View();
      var free := set k | k in rows && Claimable(rows[k], now);
      assert forall k :: k in rows && Claimable(rows[k], now) ==> k in free;
      if free == {} { return None; }
      var id := Least(free);
      rows := rows[id := rows[id].(lockedAt := Some(now))];
      workers := workers[w := Worker(id, now, false)];
      if Inv(s) && Timely(s) { StepKeeps(s, Claim(w, id)); }
      claimed := Some(id);
    }

    method MarkProcessed(w: Id)
      requires Enabled(View(), Done(w))
      modifies this`rows, this`workers
      ensures View() == Step(old(View()), Done(w))
    {
      var id := workers[w].row;
      rows := rows[id := rows[id].(processedAt := Some(now), lockedAt := None)];
      workers := workers - {w};
    }

    method RecordFailure(w: Id)
      requires Enabled(View(), Fail(w))
      modifies this`rows, this`workers
      ensures View() == Step(old(View()), Fail(w))
    {
      var id, row := workers[w].row, rows[workers[w].row];
      var attempts := row.attempts + 1;
      rows := rows[id := row.(attempts := attempts, lockedAt := None,
                              deadAt := if attempts >= MAX_ATTEMPTS then Some(now) else None,
                              availableAt := now + Backoff(attempts) * SECOND)];
      workers := workers - {w};
    }

    // processOutboxEvent without other steps in between. accepted is the
    // answer of the receiver, recorded whether the update that follows works:
    // when it does not, an accepted document counts as a failed attempt.
    method ProcessOutboxEvent(w: Id, accepted: bool, recorded: bool)
      requires Working(View(), w) && !workers[w].captured
      modifies this`rows, this`workers
      ensures var s, row := old(View()), old(rows)[old(workers)[w].row];
        View() == if !row.deliverable then Step(s, Done(w))
                  else if accepted && recorded then Step(Step(s, Capture(w)), Done(w))
                  else if accepted then Step(Step(s, Capture(w)), Fail(w))
                  else Step(s, Fail(w))
      ensures Inv(old(View())) && Timely(old(View())) ==> Inv(View())
    {
      hide Inv, Failed;
      ghost var s := View();
      var id := workers[w].row;
      if !rows[id].deliverable {
        MarkProcessed(w);
        if Inv(s) && Timely(s) { StepKeeps(s, Done(w)); }
        return;
      }
      if accepted {
        workers := workers[w := workers[w].(captured := true)];
        if Inv(s) && Timely(s) { StepKeeps(s, Capture(w)); }
      }
      ghost var s1 := View();
      assert Timely(s) ==> Timely(s1);
      if accepted && recorded {
        MarkProcessed(w);
        if Inv(s) && Timely(s) { StepKeeps(s1, Done(w)); }
      } else {
        RecordFailure(w);
        if Inv(s) && Timely(s) { StepKeeps(s1, Fail(w)); }
      }
    }
  }
}
