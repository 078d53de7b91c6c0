// The event outbox: workers lease a row for five minutes, deliver its
// document, and record the outcome; failures are retried with backoff until
// the tenth makes the row a dead letter.
module Outbox {
  import opened Wrappers
  import opened Numbers

  type Id = nat

  // Times are microseconds.
  const SECOND: nat := 1_000_000
  const LEASE: nat := 300 * SECOND
  const MAX_ATTEMPTS: nat := 10

  datatype Row = Row(deliverable: bool, attempts: nat, availableAt: nat, lockedAt: Option<nat>, processedAt: Option<nat>,
                     deadAt: Option<nat>)

  // A live worker between its claim and its last statement; captured says
  // whether the receiver has accepted the document.
  datatype Worker = Worker(row: Id, claimedAt: nat, captured: bool)

  datatype State = State(rows: map<Id, Row>, workers: map<Id, Worker>, now: nat)

  // One statement or transaction on the database, or the answer of the
  // receiving service; a worker may stop between any two of its steps.
  datatype Event =
    | Add(id: Id, deliverable: bool)
    | Tick(elapsed: nat)
    | Claim(worker: Id, id: Id)
    | Capture(worker: Id) // the receiver accepts the document
    | Done(worker: Id)    // processed_at is set
    | Fail(worker: Id)    // the catch block records a failure
    | Crash(worker: Id)
    | Replay(id: Id)      // an approved replay request resets the row

  /******* Claims *******/

  predicate Claimable(row: Row, now: nat) {
    && row.processedAt.None? && row.deadAt.None? && row.availableAt <= now
    && (row.lockedAt.None? || row.lockedAt.value + LEASE < now)
  }

  // Seconds to wait after a number of failed attempts.
  function Backoff(attempts: nat): nat {
    Min(3600, Pow2(Min(attempts, 11)))
  }

  function Failed(row: Row, now: nat): Row {
    row.(attempts := row.attempts + 1, lockedAt := None,
         deadAt := if row.attempts + 1 >= MAX_ATTEMPTS then Some(now) else None,
         availableAt := now + Backoff(row.attempts + 1) * SECOND)
  }

  function Replayed(row: Row, now: nat): Row {
    row.(deadAt := None, attempts := 0, availableAt := now, lockedAt := None)
  }

  /******* Steps *******/

  predicate Enabled(s: State, e: Event) {
    match e
    case Add(id, _) => id !in s.rows
    case Tick(_) => true
    case Claim(w, id) => w !in s.workers && id in s.rows && Claimable(s.rows[id], s.now)
    case Capture(w) => Working(s, w) && s.rows[s.workers[w].row].deliverable
    case Done(w) => Working(s, w) && (s.workers[w].captured || !s.rows[s.workers[w].row].deliverable)
    case Fail(w) => Working(s, w) && s.rows[s.workers[w].row].deliverable
    case Crash(w) => w in s.workers
    case Replay(id) => id in s.rows
  }

  predicate Working(s: State, w: Id) {
    w in s.workers && s.workers[w].row in s.rows
  }

  function Step(s: State, e: Event): State {
    if !Enabled(s, e) then s else
    match e
    case Add(id, deliverable) => s.(rows := s.rows[id := Row(deliverable, 0, s.now, None, None, None)])
    case Tick(elapsed) => s.(now := s.now + elapsed)
    case Claim(w, id) =>
      s.(rows := s.rows[id := s.rows[id].(lockedAt := Some(s.now))], workers := s.workers[w := Worker(id, s.now, false)])
    case Capture(w) =>
      s.(workers := s.workers[w := s.workers[w].(captured := true)])
    case Done(w) =>
      var id := s.workers[w].row;
      s.(rows := s.rows[id := s.rows[id].(processedAt := Some(s.now), lockedAt := None)], workers := s.workers - {w})
    case Fail(w) =>
      var id := s.workers[w].row;
      s.(rows := s.rows[id := Failed(s.rows[id], s.now)], workers := s.workers - {w})
    case Crash(w) => s.(workers := s.workers - {w})
    case Replay(id) => s.(rows := s.rows[id := Replayed(s.rows[id], s.now)])
  }

  const EMPTY: State := State(map[], map[], 0)

  /******* The invariant *******/

  predicate RowOk(row: Row, now: nat) {
    && (row.processedAt.Some? ==> row.deadAt.None?)
    && row.attempts <= MAX_ATTEMPTS
    && (row.deadAt.Some? <==> row.attempts == MAX_ATTEMPTS)
    && (row.processedAt.Some? || row.deadAt.Some? ==> row.lockedAt.None?)
    && (row.lockedAt.Some? ==> row.availableAt <= row.lockedAt.value <= now)
    && row.availableAt <= now + 1024 * SECOND
  }

  // The row is the worker's: its lock is the one the worker set.
  predicate Owns(s: State, w: Id)
    requires w in s.workers
  {
    var worker := s.workers[w];
    && worker.row in s.rows
    && s.rows[worker.row].lockedAt == Some(worker.claimedAt)
  }

  predicate RowsOk(s: State) {
    forall id {:trigger s.rows[id]} :: id in s.rows ==> RowOk(s.rows[id], s.now)
  }

  predicate WorkersOk(s: State) {
    && (forall w {:trigger Owns(s, w)} :: w in s.workers ==> Owns(s, w))
    && (forall w, v {:trigger s.workers[w], s.workers[v]} :: w in s.workers && v in s.workers && w != v ==> s.workers[w].row != s.workers[v].row)
  }

  predicate Inv(s: State) {
    RowsOk(s) && WorkersOk(s)
  }

  // Every live worker is within its lease.
  predicate Timely(s: State) {
    forall w {:trigger s.workers[w]} :: w in s.workers ==> s.now <= s.workers[w].claimedAt + LEASE
  }

  predicate Held(s: State, id: Id) {
    exists w :: w in s.workers && s.workers[w].row == id
  }

  /******* It holds in every timely run *******/

  // Neither cap of the backoff expression is ever reached: ten failures end
  // the retries before.
  lemma BackoffIsPower(attempts: nat)
    requires attempts <= MAX_ATTEMPTS
    ensures Backoff(attempts) == Pow2(attempts) <= 1024
  {
    assert Pow2(10) == 1024;
    Pow2Grows(attempts, 10);
  }

  lemma FailedRowOk(row: Row, now: nat)
    requires RowOk(row, now) && row.processedAt.None? && row.deadAt.None?
    ensures RowOk(Failed(row, now), now)
  {
    hide Backoff;
    BackoffIsPower(row.attempts + 1);
  }

  // Rewriting the row of one worker whose step ends with that statement.
  lemma LastStatementKeeps(s: State, w: Id, row: Row)
    requires Inv(s) && w in s.workers && RowOk(row, s.now)
    ensures Inv(s.(rows := s.rows[s.workers[w].row := row], workers := s.workers - {w}))
  {
    hide RowOk;
    assert Owns(s, w);
    var s' := s.(rows := s.rows[s.workers[w].row := row], workers := s.workers - {w});
    forall v | v in s'.workers ensures Owns(s', v) { assert Owns(s, v); }
  }

  lemma OwnedRow(s: State, w: Id)
    requires Inv(s) && w in s.workers
    ensures Owns(s, w) && RowOk(s.rows[s.workers[w].row], s.now)
    ensures s.rows[s.workers[w].row].processedAt.None? && s.rows[s.workers[w].row].deadAt.None?
  {
  }

  lemma ClaimKeeps(s: State, w: Id, id: Id)
    requires Inv(s) && Timely(s) && Enabled(s, Claim(w, id))
    ensures Inv(Step(s, Claim(w, id)))
  {
    var s' := Step(s, Claim(w, id));
    forall v | v in s'.workers ensures Owns(s', v) {
      if v != w { assert Owns(s, v); }
    }
    forall v | v in s.workers ensures s.workers[v].row != id { assert Owns(s, v); }
  }

  lemma CaptureKeeps(s: State, w: Id)
    requires Inv(s) && Enabled(s, Capture(w))
    ensures Inv(Step(s, Capture(w)))
  {
    var s' := Step(s, Capture(w));
    OwnedRow(s, w);
    forall v | v in s'.workers ensures Owns(s', v) { assert Owns(s, v); }
  }

  lemma AddKeeps(s: State, id: Id, deliverable: bool)
    requires Inv(s) && id !in s.rows
    ensures Inv(Step(s, Add(id, deliverable)))
  {
    var s' := Step(s, Add(id, deliverable));
    forall v | v in s'.workers ensures Owns(s', v) { assert Owns(s, v); }
  }

  lemma TickKeeps(s: State, elapsed: nat)
    requires Inv(s)
    ensures Inv(Step(s, Tick(elapsed)))
  {
    var s' := Step(s, Tick(elapsed));
    forall v | v in s'.workers ensures Owns(s', v) { assert Owns(s, v); }
  }

  // A replay keeps the invariant exactly when no live worker holds the row. A
  // dead row is held by none. Which rows a replay can meet depends on the
  // requests for it: OutboxReplay.dfy.
  lemma ReplayKeeps(s: State, id: Id)
    requires Inv(s) && id in s.rows
    ensures Inv(Step(s, Replay(id))) <==> !Held(s, id)
    ensures s.rows[id].deadAt.Some? || s.rows[id].processedAt.Some? ==> !Held(s, id)
  {
    var s' := Step(s, Replay(id));
    assert RowOk(s.rows[id], s.now);
    if Held(s, id) {
      var w :| w in s.workers && s.workers[w].row == id;
      assert Owns(s, w);
      assert !Owns(s', w);
    } else {
      forall v | v in s'.workers ensures Owns(s', v) { assert Owns(s, v); }
    }
  }

  predicate Careful(s: State, e: Event) {
    Timely(s) && (e.Replay? && e.id in s.rows ==> s.rows[e.id].deadAt.Some?)
  }

  lemma StepKeeps(s: State, e: Event)
    requires Inv(s) && Careful(s, e)
    ensures Inv(Step(s, e))
  {
    hide Inv, Claimable, Failed, RowOk, Owns;
    if Enabled(s, e) {
      match e
      case Add(id, deliverable) => AddKeeps(s, id, deliverable);
      case Tick(elapsed) => TickKeeps(s, elapsed);
      case Claim(w, id) => ClaimKeeps(s, w, id);
      case Capture(w) => CaptureKeeps(s, w);
      case Done(w) =>
        DoneRowOk(s, w);
        LastStatementKeeps(s, w, s.rows[s.workers[w].row].(processedAt := Some(s.now), lockedAt := None));
      case Fail(w) =>
        OwnedRow(s, w);
        FailedRowOk(s.rows[s.workers[w].row], s.now);
        LastStatementKeeps(s, w, Failed(s.rows[s.workers[w].row], s.now));
      case Crash(w) => CrashKeeps(s, w);
      case Replay(id) => ReplayKeeps(s, id);
    }
  }

  lemma DoneRowOk(s: State, w: Id)
    requires Inv(s) && Enabled(s, Done(w))
    ensures RowOk(s.rows[s.workers[w].row].(processedAt := Some(s.now), lockedAt := None), s.now)
  {
    OwnedRow(s, w);
  }

  lemma CrashKeeps(s: State, w: Id)
    requires Inv(s) && w in s.workers
    ensures Inv(s.(workers := s.workers - {w}))
  {
    var s' := s.(workers := s.workers - {w});
    forall v | v in s'.workers ensures Owns(s', v) { assert Owns(s, v); }
  }

  /******* Nothing is lost, nothing is shared *******/

  // A row that is neither processed nor dead can be claimed after at most 1024
  // seconds if nobody touches it, whether its worker lives or not.
  lemma NeverStuck(s: State, id: Id, later: nat)
    requires Inv(s) && id in s.rows && later > s.now + 1024 * SECOND
    ensures s.rows[id].processedAt.Some? || s.rows[id].deadAt.Some? || Claimable(s.rows[id], later)
  {
    assert RowOk(s.rows[id], s.now);
  }

  // The exact limit: a row is taken from a live worker only after its lease.
  lemma LeaseIsExact(s: State, w: Id)
    requires Inv(s) && w in s.workers
    ensures Working(s, w)
    ensures Claimable(s.rows[s.workers[w].row], s.now) <==> s.now > s.workers[w].claimedAt + LEASE
  {
    OwnedRow(s, w);
  }

  // A replay followed by a claim gives the row to two workers exactly when one
  // holds it already.
  lemma ReplaySharesIffHeld(s: State, id: Id, v: Id)
    requires Inv(s) && id in s.rows && v !in s.workers
    ensures Shared(Step(Step(s, Replay(id)), Claim(v, id)), v) <==> Held(s, id)
  {
    hide Failed;
    if Held(s, id) {
      var w :| w in s.workers && s.workers[w].row == id;
      OwnedRow(s, w);
      var t := Step(Step(s, Replay(id)), Claim(v, id));
      assert w in t.workers && w != v && t.workers[w].row == t.workers[v].row;
    }
  }

  // The worker has its row together with another.
  predicate Shared(s: State, v: Id) {
    v in s.workers && exists w :: w in s.workers && w != v && s.workers[w].row == s.workers[v].row
  }

  // A worker that outlives its lease shares the row with the next one.
  lemma LateWorkerShares(s: State, w: Id, v: Id)
    requires Inv(s) && w in s.workers && v !in s.workers && s.now > s.workers[w].claimedAt + LEASE
    ensures var s' := Step(s, Claim(v, s.workers[w].row));
      w in s'.workers && v in s'.workers && s'.workers[w].row == s'.workers[v].row
  {
    LeaseIsExact(s, w);
  }
}
