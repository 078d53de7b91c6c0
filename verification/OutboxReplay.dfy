// The outbox together with the replay requests for its dead letters: a request
// is filed for a row that was read as dead, at most one per row is pending, and
// approving it resets the row without looking at it again.
//
// Filing is one transaction with two statements, the read of the row and the
// insert; other transactions can commit between them.
module OutboxReplay {
  import opened Outbox

  datatype RequestStatus = Pending | Approved | Rejected
  datatype ReplayRequest = ReplayRequest(row: Id, status: RequestStatus)

  // asking: the transactions that have read a dead row and not inserted yet.
  datatype System = System(s: State, requests: map<Id, ReplayRequest>, asking: map<Id, Id>)

  const START: System := System(EMPTY, map[], map[])

  datatype Action =
    | Outbox(e: Event)                // anything but a replay
    | Create(request: Id, row: Id)    // a request filed with nothing in between
    | Ask(x: Id, row: Id)             // its read
    | File(x: Id, request: Id)        // its insert
    | GiveUp(x: Id)
    | Decide(request: Id, approve: bool)

  predicate Dead(s: State, id: Id) {
    id in s.rows && s.rows[id].deadAt.Some? && s.rows[id].processedAt.None?
  }

  // The unique index over pending requests.
  predicate HasPending(requests: map<Id, ReplayRequest>, id: Id) {
    exists r :: r in requests && requests[r] == ReplayRequest(id, Pending)
  }

  predicate MayFile(y: System, request: Id, id: Id) {
    request !in y.requests && !HasPending(y.requests, id)
  }

  predicate Possible(y: System, a: Action) {
    match a
    case Outbox(e) => !e.Replay?
    case Create(r, id) => Dead(y.s, id) && MayFile(y, r, id)
    case Ask(x, id) => x !in y.asking && Dead(y.s, id)
    case File(x, r) => x in y.asking && MayFile(y, r, y.asking[x])
    case GiveUp(x) => x in y.asking
    case Decide(r, _) => r in y.requests && y.requests[r].status == Pending
  }

  function Act(y: System, a: Action): System {
    if !Possible(y, a) then y else
    match a
    case Outbox(e) => y.(s := Step(y.s, e))
    case Create(r, id) => y.(requests := y.requests[r := ReplayRequest(id, Pending)])
    case Ask(x, id) => y.(asking := y.asking[x := id])
    case File(x, r) =>
      y.(requests := y.requests[r := ReplayRequest(y.asking[x], Pending)], asking := y.asking - {x})
    case GiveUp(x) => y.(asking := y.asking - {x})
    case Decide(r, approve) =>
      var id := y.requests[r].row;
      y.(requests := y.requests[r := ReplayRequest(id, if approve then Approved else Rejected)],
         s := if approve then Step(y.s, Replay(id)) else y.s)
  }

  function RunOf(y: System, actions: seq<Action>): System
    decreases |actions|
  {
    if actions == [] then y else Act(RunOf(y, actions[..|actions| - 1]), actions[|actions| - 1])
  }

  lemma {:induction false} RunJoins(y: System, a: seq<Action>, b: seq<Action>)
    ensures RunOf(y, a + b) == RunOf(RunOf(y, a), b)
    decreases |b|
  {
    hide Act;
    if b == [] {
      assert a + b == a;
    } else {
      assert (a + b)[..|a + b| - 1] == a + b[..|b| - 1];
      RunJoins(y, a, b[..|b| - 1]);
    }
  }

  lemma RunAct(y: System, a: Action)
    ensures RunOf(y, [a]) == Act(y, a)
  {
    hide Act;
    assert [a][..0] == [];
  }

  /******* What keeps rows unshared *******/

  // A pending request is for a row that is still dead, and for no other's.
  predicate PendingIsDead(y: System, r: Id)
    requires r in y.requests
  {
    y.requests[r].status == Pending ==> Dead(y.s, y.requests[r].row)
  }

  predicate SystemInv(y: System) {
    && Inv(y.s)
    && (forall r {:trigger PendingIsDead(y, r)} :: r in y.requests ==> PendingIsDead(y, r))
    && (forall r, q {:trigger y.requests[r], y.requests[q]} ::
          (r in y.requests && q in y.requests && y.requests[r].row == y.requests[q].row
           && y.requests[r].status == Pending && y.requests[q].status == Pending) ==> r == q)
    && (forall x {:trigger y.asking[x]} :: x in y.asking ==> y.asking[x] in y.s.rows)
  }

  // Live workers are within their leases, and a request that is inserted finds
  // its row as it was read.
  predicate Orderly(y: System, a: Action) {
    Timely(y.s) && (a.File? && a.x in y.asking ==> Dead(y.s, y.asking[a.x]))
  }

  predicate OrderlyRun(y: System, actions: seq<Action>)
    decreases |actions|
  {
    actions == [] ||
    (OrderlyRun(y, actions[..|actions| - 1]) && Orderly(RunOf(y, actions[..|actions| - 1]), actions[|actions| - 1]))
  }

  // Only an approval brings a dead row back.
  lemma DeadStaysDead(s: State, e: Event, id: Id)
    requires Inv(s) && Dead(s, id) && !e.Replay?
    ensures Dead(Step(s, e), id)
  {
    assert RowOk(s.rows[id], s.now);
    if (e.Capture? || e.Done? || e.Fail?) && e.worker in s.workers { OwnedRow(s, e.worker); }
    hide Inv, RowOk, Failed;
  }

  lemma RowsStay(s: State, e: Event)
    ensures s.rows.Keys <= Step(s, e).rows.Keys
  {
    hide Claimable, Failed, Replayed;
  }

  lemma OutboxKeeps(y: System, e: Event)
    requires SystemInv(y) && Timely(y.s) && !e.Replay?
    ensures SystemInv(y.(s := Step(y.s, e)))
  {
    hide Inv, Step, Dead;
    var t := y.(s := Step(y.s, e));
    StepKeeps(y.s, e);
    RowsStay(y.s, e);
    forall r | r in t.requests ensures PendingIsDead(t, r) {
      assert PendingIsDead(y, r);
      if y.requests[r].status == Pending { DeadStaysDead(y.s, e, y.requests[r].row); }
    }
  }

  lemma FileKeeps(y: System, r: Id, id: Id, asking: map<Id, Id>)
    requires SystemInv(y) && MayFile(y, r, id) && Dead(y.s, id)
    requires forall x :: x in asking ==> x in y.asking && asking[x] == y.asking[x]
    ensures SystemInv(y.(requests := y.requests[r := ReplayRequest(id, Pending)], asking := asking))
  {
    hide Inv, Dead;
    var t := y.(requests := y.requests[r := ReplayRequest(id, Pending)], asking := asking);
    forall q | q in t.requests ensures PendingIsDead(t, q) { if q != r { assert PendingIsDead(y, q); } }
    forall q | q in y.requests && y.requests[q].status == Pending ensures y.requests[q].row != id {
      assert y.requests[q] == ReplayRequest(y.requests[q].row, Pending);
    }
  }

  lemma DecideKeeps(y: System, r: Id, approve: bool)
    requires SystemInv(y) && Timely(y.s) && Possible(y, Decide(r, approve))
    ensures SystemInv(Act(y, Decide(r, approve)))
  {
    hide Inv, Step;
    var t := Act(y, Decide(r, approve));
    var id := y.requests[r].row;
    assert PendingIsDead(y, r);
    if approve { StepKeeps(y.s, Replay(id)); RowsStay(y.s, Replay(id)); }
    forall q | q in t.requests ensures PendingIsDead(t, q) {
      if q != r {
        assert PendingIsDead(y, q);
        if approve && y.requests[q].status == Pending { OtherRowStays(y.s, id, y.requests[q].row); }
      }
    }
  }

  lemma OtherRowStays(s: State, id: Id, other: Id)
    requires id != other && Dead(s, other)
    ensures Dead(Step(s, Replay(id)), other)
  {
  }

  lemma ActKeeps(y: System, a: Action)
    requires SystemInv(y) && Orderly(y, a)
    ensures SystemInv(Act(y, a))
  {
    hide Inv, Step, Dead, MayFile;
    if Possible(y, a) {
      match a
      case Outbox(e) => OutboxKeeps(y, e);
      case Create(r, id) => FileKeeps(y, r, id, y.asking);
      case Ask(x, id) => AskKeeps(y, x, id);
      case File(x, r) => FileKeeps(y, r, y.asking[x], y.asking - {x});
      case GiveUp(x) => GiveUpKeeps(y, x);
      case Decide(r, approve) => DecideKeeps(y, r, approve);
    }
  }

  lemma AskKeeps(y: System, x: Id, id: Id)
    requires SystemInv(y) && Dead(y.s, id)
    ensures SystemInv(y.(asking := y.asking[x := id]))
  {
    hide Inv;
    var t := y.(asking := y.asking[x := id]);
    forall r | r in t.requests ensures PendingIsDead(t, r) { assert PendingIsDead(y, r); }
  }

  lemma GiveUpKeeps(y: System, x: Id)
    requires SystemInv(y)
    ensures SystemInv(y.(asking := y.asking - {x}))
  {
    hide Inv;
    var t := y.(asking := y.asking - {x});
    forall r | r in t.requests ensures PendingIsDead(t, r) { assert PendingIsDead(y, r); }
  }

  // Every orderly run, with any interleaving of workers and approvals.
  lemma {:induction false} RunKeeps(actions: seq<Action>)
    requires OrderlyRun(START, actions)
    ensures SystemInv(RunOf(START, actions))
    decreases |actions|
  {
    hide SystemInv, Act, Orderly;
    if actions == [] {
      StartInv();
    } else {
      RunKeeps(actions[..|actions| - 1]);
      ActKeeps(RunOf(START, actions[..|actions| - 1]), actions[|actions| - 1]);
    }
  }

  lemma StartInv()
    ensures SystemInv(START)
  {
  }

  /******* The exact condition *******/

  // Live workers are within their leases, and no row is reset that one holds.
  predicate Undisturbed(y: System, a: Action) {
    Timely(y.s) && (a.Decide? && a.approve && Possible(y, a) ==> !Held(y.s, y.requests[a.request].row))
  }

  predicate UndisturbedRun(y: System, actions: seq<Action>)
    decreases |actions|
  {
    actions == [] ||
    (UndisturbedRun(y, actions[..|actions| - 1]) && Undisturbed(RunOf(y, actions[..|actions| - 1]), actions[|actions| - 1]))
  }

  lemma UndisturbedStep(y: System, a: Action)
    requires Inv(y.s) && Undisturbed(y, a)
    ensures Inv(Act(y, a).s)
  {
    hide Inv, Step, Dead, MayFile, Held;
    if Possible(y, a) {
      if a.Outbox? {
        StepKeeps(y.s, a.e);
      } else if a.Decide? && a.approve {
        var id := y.requests[a.request].row;
        if id in y.s.rows { ReplayKeeps(y.s, id); } else { NoRow(y.s, id); }
      }
    }
  }

  lemma NoRow(s: State, id: Id)
    requires id !in s.rows
    ensures Step(s, Replay(id)) == s
  {
  }

  lemma {:induction false} UndisturbedKeeps(actions: seq<Action>)
    requires UndisturbedRun(START, actions)
    ensures Inv(RunOf(START, actions).s)
    decreases |actions|
  {
    hide Inv, Act, Undisturbed;
    if actions == [] {
      StartInv();
    } else {
      UndisturbedKeeps(actions[..|actions| - 1]);
      UndisturbedStep(RunOf(START, actions[..|actions| - 1]), actions[|actions| - 1]);
    }
  }

  lemma OneWorkerPerRow(actions: seq<Action>, w: Id, v: Id)
    requires UndisturbedRun(START, actions)
    requires var s := RunOf(START, actions).s; w in s.workers && v in s.workers && s.workers[w].row == s.workers[v].row
    ensures w == v
  {
    hide RunOf, UndisturbedRun;
    UndisturbedKeeps(actions);
  }

  // The next approval lets its row be shared exactly when a worker holds it.
  lemma ApprovalSharesIffHeld(actions: seq<Action>, r: Id, v: Id)
    requires UndisturbedRun(START, actions) && Possible(RunOf(START, actions), Decide(r, true))
    requires RunOf(START, actions).requests[r].row in RunOf(START, actions).s.rows && v !in RunOf(START, actions).s.workers
    ensures var y := RunOf(START, actions); var id := y.requests[r].row;
      Shared(Act(Act(y, Decide(r, true)), Outbox(Claim(v, id))).s, v) <==> Held(y.s, id)
  {
    hide RunOf, UndisturbedRun, Inv, Step, Shared, Held;
    UndisturbedKeeps(actions);
    var y := RunOf(START, actions);
    ReplaySharesIffHeld(y.s, y.requests[r].row, v);
  }

  // A request that is inserted while its row is still dead never leads there.
  lemma {:induction false} OrderlyIsUndisturbed(actions: seq<Action>)
    requires OrderlyRun(START, actions)
    ensures UndisturbedRun(START, actions)
    decreases |actions|
  {
    hide RunOf, Inv, Act, Held;
    if actions != [] {
      var before, a := actions[..|actions| - 1], actions[|actions| - 1];
      OrderlyIsUndisturbed(before);
      RunKeeps(before);
      var y := RunOf(START, before);
      if a.Decide? && Possible(y, a) {
        assert PendingIsDead(y, a.request);
        ReplayKeeps(y.s, y.requests[a.request].row);
      }
    }
  }

  /******* What the table says *******/

  // Failures recorded for a row since it was last reset.
  function FailuresOf(actions: seq<Action>, id: Id): nat
    decreases |actions|
  {
    if actions == [] then 0 else
    var before, a := FailuresOf(actions[..|actions| - 1], id), actions[|actions| - 1];
    var y := RunOf(START, actions[..|actions| - 1]);
    if !Possible(y, a) then before else
    match a
    case Outbox(e) => if e.Fail? && Enabled(y.s, e) && y.s.workers[e.worker].row == id then before + 1 else before
    case Decide(r, approve) => if approve && y.requests[r].row == id then 0 else before
    case _ => before
  }

  // Documents of a row that the receiver has accepted.
  function CapturesOf(actions: seq<Action>, id: Id): nat
    decreases |actions|
  {
    if actions == [] then 0 else
    var before, a := CapturesOf(actions[..|actions| - 1], id), actions[|actions| - 1];
    var y := RunOf(START, actions[..|actions| - 1]);
    if a.Outbox? && a.e.Capture? && Enabled(y.s, a.e) && y.s.workers[a.e.worker].row == id then before + 1 else before
  }

  lemma {:induction false} AttemptsAreFailures(actions: seq<Action>, id: Id)
    ensures var s := RunOf(START, actions).s;
      if id in s.rows then s.rows[id].attempts == FailuresOf(actions, id) else FailuresOf(actions, id) == 0
    decreases |actions|
  {
    hide Claimable, Backoff, Dead, MayFile;
    if actions != [] { AttemptsAreFailures(actions[..|actions| - 1], id); }
  }

  predicate Accounted(s: State, captures: nat, id: Id) {
    && (forall w {:trigger s.workers[w]} :: w in s.workers && s.workers[w].row == id && s.workers[w].captured ==> captures > 0)
    && (id in s.rows && s.rows[id].processedAt.Some? && s.rows[id].deliverable ==> captures > 0)
  }

  lemma {:induction false} ProcessedWasCaptured(actions: seq<Action>, id: Id)
    ensures Accounted(RunOf(START, actions).s, CapturesOf(actions, id), id)
    decreases |actions|
  {
    hide Claimable, Backoff, Dead, MayFile;
    if actions != [] { ProcessedWasCaptured(actions[..|actions| - 1], id); }
  }

  lemma RowOutcomes(actions: seq<Action>, id: Id)
    requires UndisturbedRun(START, actions) && id in RunOf(START, actions).s.rows
    ensures var row, failures := RunOf(START, actions).s.rows[id], FailuresOf(actions, id);
      && !(row.processedAt.Some? && row.deadAt.Some?)
      && row.attempts == failures <= MAX_ATTEMPTS
      && (row.deadAt.Some? <==> failures == MAX_ATTEMPTS)
      && (row.processedAt.Some? && row.deliverable ==> CapturesOf(actions, id) > 0)
  {
    hide RunOf, UndisturbedRun, FailuresOf, CapturesOf;
    UndisturbedKeeps(actions);
    AttemptsAreFailures(actions, id);
    ProcessedWasCaptured(actions, id);
    var s := RunOf(START, actions).s;
    assert RowOk(s.rows[id], s.now);
  }

  /******* Without a race every run is orderly *******/

  // Serial filing: requests are created with nothing between read and insert.
  predicate Serial(actions: seq<Action>) {
    forall i :: 0 <= i < |actions| ==> !actions[i].Ask?
  }

  predicate TimelyRun(y: System, actions: seq<Action>)
    decreases |actions|
  {
    actions == [] || (TimelyRun(y, actions[..|actions| - 1]) && Timely(RunOf(y, actions[..|actions| - 1]).s))
  }

  lemma {:induction false} SerialIsOrderly(actions: seq<Action>)
    requires Serial(actions) && TimelyRun(START, actions)
    ensures OrderlyRun(START, actions) && RunOf(START, actions).asking == map[]
    decreases |actions|
  {
    hide Step, Dead, MayFile;
    if actions != [] {
      SerialIsOrderly(actions[..|actions| - 1]);
    }
  }

  // Creation with nothing in between is the read followed by the insert; when
  // the index refuses the insert the transaction ends.
  function Filing(x: Id, r: Id, id: Id): seq<Action> {
    [Ask(x, id), File(x, r), GiveUp(x)]
  }

  lemma CreateIsFiling(y: System, x: Id, r: Id, id: Id)
    requires y.asking == map[]
    ensures RunOf(y, Filing(x, r, id)) == Act(y, Create(r, id))
  {
    hide Dead, RunOf, MayFile;
    var asked := Act(y, Ask(x, id));
    var filed := Act(asked, File(x, r));
    assert Filing(x, r, id) == [Ask(x, id)] + [File(x, r)] + [GiveUp(x)];
    RunJoins(y, [Ask(x, id)] + [File(x, r)], [GiveUp(x)]);
    RunJoins(y, [Ask(x, id)], [File(x, r)]);
    RunAct(y, Ask(x, id));
    RunAct(asked, File(x, r));
    RunAct(filed, GiveUp(x));
    SameMayFile(y, asked, r, id);
    assert asked.asking - {x} == map[];
  }

  lemma SameMayFile(y: System, z: System, r: Id, id: Id)
    requires y.requests == z.requests
    ensures MayFile(z, r, id) <==> MayFile(y, r, id)
  {
  }

  function WithFilings(actions: seq<Action>, x: Id): seq<Action>
    decreases |actions|
  {
    if actions == [] then [] else
    var a := actions[|actions| - 1];
    WithFilings(actions[..|actions| - 1], x) + if a.Create? then Filing(x, a.request, a.row) else [a]
  }

  lemma {:induction false} SerialAsksNothing(actions: seq<Action>)
    requires Serial(actions)
    ensures RunOf(START, actions).asking == map[]
    decreases |actions|
  {
    hide Step, Dead, MayFile;
    if actions != [] { SerialAsksNothing(actions[..|actions| - 1]); }
  }

  // Serial runs are those in which read and insert stand side by side.
  lemma {:induction false} SerialIsAdjacent(actions: seq<Action>, x: Id)
    requires Serial(actions)
    ensures RunOf(START, WithFilings(actions, x)) == RunOf(START, actions)
    decreases |actions|
  {
    hide Act, Filing;
    if actions != [] {
      var before, a := actions[..|actions| - 1], actions[|actions| - 1];
      SerialIsAdjacent(before, x);
      SerialAsksNothing(before);
      var y := RunOf(START, before);
      if a.Create? {
        CreateIsFiling(y, x, a.request, a.row);
        RunJoins(START, WithFilings(before, x), Filing(x, a.request, a.row));
      } else {
        RunJoins(START, WithFilings(before, x), [a]);
        RunAct(y, a);
      }
    }
  }
}
