// Runs from an empty outbox after which two workers hold one row: an approval
// of a replay request that was inserted late, and a worker that takes longer
// than its lease.
module OutboxExamples {
  import opened Wrappers
  import opened Outbox
  import opened OutboxReplay

  // Row 0 is added and fails n times.
  function Failures(n: nat): seq<Action> {
    if n == 0 then [Outbox(Add(0, true))]
    else Failures(n - 1) + [Outbox(Claim(0, 0)), Outbox(Fail(0)), Outbox(Tick(1024 * SECOND))]
  }

  predicate FailedTimes(y: System, n: nat) {
    && y.requests == map[] && y.asking == map[] && y.s.workers == map[] && 0 in y.s.rows
    && var row := y.s.rows[0];
    && row.deliverable && row.attempts == n && row.processedAt.None? && row.lockedAt.None?
    && row.availableAt <= y.s.now && (row.deadAt.Some? <==> n >= MAX_ATTEMPTS)
  }

  lemma FailOnce(y: System, n: nat)
    requires FailedTimes(y, n) && n < MAX_ATTEMPTS
    ensures FailedTimes(RunOf(y, [Outbox(Claim(0, 0)), Outbox(Fail(0)), Outbox(Tick(1024 * SECOND))]), n + 1)
  {
    hide Backoff;
    BackoffIsPower(n + 1);
    var a := [Outbox(Claim(0, 0)), Outbox(Fail(0)), Outbox(Tick(1024 * SECOND))];
    assert a == [a[0]] + [a[1]] + [a[2]];
    RunJoins(y, [a[0]] + [a[1]], [a[2]]);
    RunJoins(y, [a[0]], [a[1]]);
    RunAct(y, a[0]);
    RunAct(Act(y, a[0]), a[1]);
    RunAct(Act(Act(y, a[0]), a[1]), a[2]);
    hide RunOf;
    assert Enabled(y.s, Claim(0, 0));
    var claimed := Act(y, a[0]);
    assert Enabled(claimed.s, Fail(0));
  }

  lemma {:induction false} FailuresReach(n: nat)
    requires n <= MAX_ATTEMPTS
    ensures FailedTimes(RunOf(START, Failures(n)), n)
    decreases n
  {
    hide RunOf, FailedTimes;
    if n == 0 {
      RunAct(START, Outbox(Add(0, true)));
      Added();
    } else {
      FailuresReach(n - 1);
      FailOnce(RunOf(START, Failures(n - 1)), n - 1);
      RunJoins(START, Failures(n - 1), [Outbox(Claim(0, 0)), Outbox(Fail(0)), Outbox(Tick(1024 * SECOND))]);
    }
  }

  lemma Added()
    ensures FailedTimes(Act(START, Outbox(Add(0, true))), 0)
  {
  }

  // A second request is read while the first is pending, the first is approved
  // and the row claimed, then the second is inserted and approved as well.
  function Race(): seq<Action> {
    [Create(0, 0), Ask(5, 0), Decide(0, true), Outbox(Claim(1, 0)), File(5, 1), Decide(1, true), Outbox(Claim(2, 0))]
  }

  // Before the second insert: the first worker has the row.
  lemma RaceHalfway(y: System)
    requires FailedTimes(y, MAX_ATTEMPTS)
    ensures var z := RunOf(y, Race()[..4]);
      && z.s.now == y.s.now && z.s.workers == map[1 := Worker(0, y.s.now, false)] && 0 in z.s.rows
      && z.s.rows[0].lockedAt == Some(y.s.now) && z.s.rows[0].deadAt.None? && z.s.rows[0].processedAt.None?
      && z.requests == map[0 := ReplayRequest(0, Approved)] && z.asking == map[5 := 0]
  {
    var a := Race();
    assert a[..4] == [a[0]] + [a[1]] + [a[2]] + [a[3]];
    RunJoins(y, [a[0]] + [a[1]] + [a[2]], [a[3]]);
    RunJoins(y, [a[0]] + [a[1]], [a[2]]);
    RunJoins(y, [a[0]], [a[1]]);
    RunAct(y, a[0]);
    var y1 := Act(y, a[0]);
    RunAct(y1, a[1]);
    var y2 := Act(y1, a[1]);
    RunAct(y2, a[2]);
    RunAct(Act(y2, a[2]), a[3]);
    hide RunOf;
    assert Possible(y, a[0]) && Possible(y1, a[1]) && Possible(y2, a[2]);
  }

  lemma RaceEnds(z: System, now: nat)
    requires z.s.now == now && z.s.workers == map[1 := Worker(0, now, false)] && 0 in z.s.rows
    requires z.s.rows[0].deadAt.None? && z.s.rows[0].processedAt.None?
    requires z.requests == map[0 := ReplayRequest(0, Approved)] && z.asking == map[5 := 0]
    ensures RunOf(z, Race()[4..]).s.workers == map[1 := Worker(0, now, false), 2 := Worker(0, now, false)]
    ensures RunOf(z, Race()[4..]).s.now == now
  {
    var a := Race()[4..];
    assert a == [File(5, 1)] + [Decide(1, true)] + [Outbox(Claim(2, 0))];
    RunJoins(z, [a[0]] + [a[1]], [a[2]]);
    RunJoins(z, [a[0]], [a[1]]);
    RunAct(z, a[0]);
    var z1 := Act(z, a[0]);
    RunAct(z1, a[1]);
    RunAct(Act(z1, a[1]), a[2]);
    hide RunOf;
    assert Possible(z, a[0]) && Possible(z1, a[1]);
  }

  // A run from the start after which two workers, both within their leases,
  // hold one row.
  lemma RaceShares()
    ensures var y := RunOf(START, Failures(MAX_ATTEMPTS) + Race());
      && 1 in y.s.workers && 2 in y.s.workers && y.s.workers[1].row == y.s.workers[2].row && Timely(y.s)
    ensures !UndisturbedRun(START, Failures(MAX_ATTEMPTS) + Race())
  {
    hide RunOf;
    var y := RunOf(START, Failures(MAX_ATTEMPTS));
    FailuresReach(MAX_ATTEMPTS);
    RaceHalfway(y);
    RaceEnds(RunOf(y, Race()[..4]), y.s.now);
    RunJoins(START, Failures(MAX_ATTEMPTS), Race());
    assert Race() == Race()[..4] + Race()[4..];
    RunJoins(y, Race()[..4], Race()[4..]);
    if UndisturbedRun(START, Failures(MAX_ATTEMPTS) + Race()) {
      OneWorkerPerRow(Failures(MAX_ATTEMPTS) + Race(), 1, 2);
      assert false;
    }
  }

  function Late(): seq<Action> {
    [Outbox(Add(0, true)), Outbox(Claim(1, 0)), Outbox(Tick(LEASE + 1)), Outbox(Claim(2, 0))]
  }

  lemma LateSteps()
    ensures var s := Step(Step(Step(EMPTY, Add(0, true)), Claim(1, 0)), Tick(LEASE + 1));
      s.workers == map[1 := Worker(0, 0, false)] && 0 in s.rows && s.now == LEASE + 1
      && s.rows[0] == Row(true, 0, 0, Some(0), None, None)
  {
  }

  // One worker outlives its lease: nothing else has to happen.
  lemma LateWorkerRun()
    ensures var y := RunOf(START, Late());
      1 in y.s.workers && 2 in y.s.workers && y.s.workers[1].row == y.s.workers[2].row
  {
    hide RunOf;
    var a := Late();
    assert a == [a[0]] + [a[1]] + [a[2]] + [a[3]];
    var y1 := Act(START, a[0]);
    var y2 := Act(y1, a[1]);
    var y3 := Act(y2, a[2]);
    RunJoins(START, [a[0]] + [a[1]] + [a[2]], [a[3]]);
    RunJoins(START, [a[0]] + [a[1]], [a[2]]);
    RunJoins(START, [a[0]], [a[1]]);
    RunAct(START, a[0]);
    RunAct(y1, a[1]);
    RunAct(y2, a[2]);
    RunAct(y3, a[3]);
    LateSteps();
  }
}
