// A run of two SEQUENTIAL jobs with one GTIN and batch: once the first has
// emitted a code, the second can never complete, its next chunk skips a code,
// and a single worker never gets to any job behind it.
//
// The first job asks for one code, the second for two. They are created and
// approved, a worker takes the older one and commits its chunk, and the code it
// wrote is the one that the younger job would write first. What is shown holds
// for every GTIN and every batch that can be ordered, and for everything that
// workers and administrators may do afterwards.
module CodeJobsExample {
  import opened Wrappers
  import opened Gs1CheckDigit
  import opened Gs1Path
  import opened CodeJobs
  import opened CodeJobsInvariant
  import opened CodeJobsCodes
  import opened CodeJobsTheorems
  import opened CodeJobsExact
  import opened CodeJobsSeries
  import opened CodeJobsStarvation

  function FreshJob(gtin: string, lot: string, quantity: nat): Job {
    Job(Sgtin, gtin, lot, Sequential, quantity, 0, PendingApproval, None, [])
  }

  function Requests(gtin: string, lot: string): seq<Command> {
    [Create(0, Sgtin, gtin, lot, Sequential, 1), Create(1, Sgtin, gtin, lot, Sequential, 2), Approve(0), Approve(1)]
  }

  function FirstWorker(): seq<Command> {
    [Take(0, 0), Commit(0)]
  }

  function Waiting(gtin: string, lot: string): Tenant {
    EMPTY.(jobs := map[0 := FreshJob(gtin, lot, 1).(status := Queued), 1 := FreshJob(gtin, lot, 2).(status := Queued)])
  }

  /******* The run *******/

  lemma BothApproved(config: Config, gtin: string, lot: string)
    requires lot == "" || IsValidGs1X(lot, 20)
    ensures Run(config, EMPTY, Requests(gtin, lot)) == Waiting(gtin, lot)
  {
    hide IsValidGs1X, Step, Run;
    var c := Requests(gtin, lot);
    var t1 := EMPTY.(jobs := map[0 := FreshJob(gtin, lot, 1)]);
    var t2 := t1.(jobs := t1.jobs[1 := FreshJob(gtin, lot, 2)]);
    assert c == [c[0]] + [c[1]] + [c[2]] + [c[3]];
    RunJoins(config, EMPTY, [c[0]] + [c[1]] + [c[2]], [c[3]]);
    RunJoins(config, EMPTY, [c[0]] + [c[1]], [c[2]]);
    RunJoins(config, EMPTY, [c[0]], [c[1]]);
    RunOne(config, EMPTY, c[0]);
    RunOne(config, t1, c[1]);
    RunOne(config, t2, c[2]);
    RunOne(config, Step(config, t2, c[2]), c[3]);
    CreateSteps(config, gtin, lot);
    ApproveSteps(config, t2, gtin, lot);
  }

  lemma CreateSteps(config: Config, gtin: string, lot: string)
    requires lot == "" || IsValidGs1X(lot, 20)
    ensures var t1 := EMPTY.(jobs := map[0 := FreshJob(gtin, lot, 1)]);
      && Step(config, EMPTY, Requests(gtin, lot)[0]) == t1
      && Step(config, t1, Requests(gtin, lot)[1]) == t1.(jobs := t1.jobs[1 := FreshJob(gtin, lot, 2)])
  {
    hide IsValidGs1X;
  }

  lemma ApproveSteps(config: Config, t: Tenant, gtin: string, lot: string)
    requires t == EMPTY.(jobs := map[0 := FreshJob(gtin, lot, 1)][1 := FreshJob(gtin, lot, 2)])
    ensures Step(config, Step(config, t, Approve(0)), Approve(1)) == Waiting(gtin, lot)
  {
  }

  lemma TakeFirst(config: Config, gtin: string, lot: string)
    ensures var t := Waiting(gtin, lot);
      Step(config, t, Take(0, 0)) == t.(taken := map[0 := Taken(0, t.jobs[0])])
  {
  }

  lemma InsertedOne(code: string)
    ensures Inserted(map[], [code]) == [code]
  {
    assert [code][..0] == [];
  }

  lemma SeriesOfOne(config: Config, id: Id, job: Job)
    requires CodeAt(config, id, job, 0).Success?
    ensures CodesFrom(config, id, job, 0, 1) == Success([CodeAt(config, id, job, 0).value])
  {
    hide CodeAt, CodesFrom;
    CodesFromEach(config, id, job, 0, 1);
    forall k | 0 <= k < 0 + 1 ensures CodeAt(config, id, job, k).Success? { assert k == 0; }
    var codes := CodesFrom(config, id, job, 0, 1).value;
    assert CodeAt(config, id, job, 0 + 0) == Success(codes[0]);
    assert codes == [CodeAt(config, id, job, 0).value];
  }

  // The chunk of one code that nobody has written yet.
  lemma OneCode(config: Config, t: Tenant, w: Id, id: Id)
    requires Inv(t) && w in t.taken && t.taken[w].id == id && Fit(t, id)
    requires t.rows == map[] && t.jobs[id].quantity == 1
    ensures var job, t' := t.jobs[id], RunChunk(config, t, w);
      && CodeAt(config, id, job, 0).Success?
      && t'.jobs == t.jobs[id := Advanced(job, [CodeAt(config, id, job, 0).value])]
      && t'.rows == map[CodeAt(config, id, job, 0).value := Made(id)] && t'.taken == t.taken - {w}
  {
    hide Inv, Unfit, CodeAt, RunChunk, CodesFrom, Inserted, Advanced;
    InvOfJob(t, id);
    FitJobHasCodes(config, t, id, 0);
    ChunkOf(config, t, w, id);
    SeriesOfOne(config, id, t.jobs[id]);
    InsertedOne(CodeAt(config, id, t.jobs[id], 0).value);
  }

  // The tables after the first job's chunk.
  lemma AfterFirst(config: Config, gtin: string, lot: string) returns (t: Tenant, code: string)
    requires IsValidGtin(gtin) && (lot == "" || IsValidGs1X(lot, 20))
    ensures t == Run(config, EMPTY, Requests(gtin, lot) + FirstWorker()) && Inv(t)
    ensures t.jobs.Keys == {0, 1} && t.jobs[0].status == Completed && t.taken == map[] && t.rows == map[code := Made(0)]
    ensures t.jobs[1] == FreshJob(gtin, lot, 2).(status := Queued) && Fit(t, 1)
    ensures SameSeries(t.jobs[0], t.jobs[1])
    ensures CodeAt(config, 1, t.jobs[1], 0) == Success(code)
  {
    hide Inv, Run, RunChunk, IsValidGtin, IsValidGs1X, CodeAt, Step, GtinForDigitalLink;
    var t0 := Waiting(gtin, lot);
    var t1 := t0.(taken := map[0 := Taken(0, t0.jobs[0])]);
    t := Run(config, EMPTY, Requests(gtin, lot) + FirstWorker());
    BothApproved(config, gtin, lot);
    TakeFirst(config, gtin, lot);
    RunJoins(config, EMPTY, Requests(gtin, lot), FirstWorker());
    assert FirstWorker() == [Take(0, 0)] + [Commit(0)];
    RunJoins(config, t0, [Take(0, 0)], [Commit(0)]);
    RunOne(config, t0, Take(0, 0));
    RunOne(config, t1, Commit(0));
    EmptyInv();
    RunKeeps(config, EMPTY, Requests(gtin, lot));
    StepKeeps(config, t0, Take(0, 0));
    StepKeeps(config, t1, Commit(0));
    CommitIs(config, t1, 0);
    OneCode(config, t1, 0, 0);
    code := CodeAt(config, 0, t1.jobs[0], 0).value;
    SeriesShareCodes(config, 0, t1.jobs[0], 1, t.jobs[1], 0);
  }

  /******* What comes of it *******/

  // After the first job's chunk the second one is overtaken, blocked, and
  // incomplete after every further run.
  lemma SecondOfSeriesIsStuck(config: Config, gtin: string, lot: string, further: seq<Command>)
    requires IsValidGtin(gtin) && (lot == "" || IsValidGs1X(lot, 20))
    ensures var t := Run(config, EMPTY, Requests(gtin, lot) + FirstWorker());
      && Fit(t, 1) && Overtaken(config, t, 1) && Blocked(config, t, 1)
      && 0 in t.jobs && t.jobs[0].status == Completed
      && 1 in Run(config, t, further).jobs && Run(config, t, further).jobs[1].status != Completed
  {
    hide Inv, Run, IsValidGtin, IsValidGs1X, CodeAt, SameSeries, Unfit;
    var t, code := AfterFirst(config, gtin, lot);
    assert Exists(config, t, 1, t.jobs[1], 0);
    BlockedForever(config, t, further, 1);
  }

  // Its own chunk then skips the first code: the one row it has is that of its
  // second index, although it has counted one.
  lemma SecondOfSeriesSkips(config: Config, gtin: string, lot: string)
    requires Hash(config, {1}) && IsValidGtin(gtin) && (lot == "" || IsValidGs1X(lot, 20))
    ensures var t := Run(config, EMPTY, Requests(gtin, lot) + FirstWorker() + [Take(0, 1), Commit(0)]);
      1 in t.jobs && t.jobs[1].generated == 1 && !Clean(config, t, 1)
  {
    hide Inv, Run, IsValidGtin, IsValidGs1X, CodeAt, SameSeries, Unfit, CodesFrom, RunChunk, Hash;
    var t, code := AfterFirst(config, gtin, lot);
    var held := t.(taken := map[0 := Taken(1, t.jobs[1])]);
    TakeSecond(config, t);
    StepKeeps(config, t, Take(0, 1));
    assert [Take(0, 1), Commit(0)] == [Take(0, 1)] + [Commit(0)];
    RunJoins(config, EMPTY, Requests(gtin, lot) + FirstWorker(), [Take(0, 1), Commit(0)]);
    RunJoins(config, t, [Take(0, 1)], [Commit(0)]);
    RunOne(config, t, Take(0, 1));
    RunOne(config, held, Commit(0));
    CommitIs(config, held, 0);
    ChunkOf(config, held, 0, 1);
    FitChunkHasCodes(config, held, 1, 0, 2);
    ChunkCodesDistinct(config, held, 1, 0, 2);
    var codes := CodesOf(config, 1, held.jobs[1], 0, 2);
    assert CodeAt(config, 1, held.jobs[1], 0 + 0) == Success(codes[0]);
    InsertedSecond(held.rows, codes);
    var t' := RunChunk(config, held, 0);
    SameCodesSameCode(config, 1, held.jobs[1], t'.jobs[1], 0);
    assert t'.jobs[1].issued[0] == codes[1];
  }

  lemma TakeSecond(config: Config, t: Tenant)
    requires t.jobs.Keys == {0, 1} && t.jobs[0].status == Completed && Runnable(t.jobs[1]) && t.taken == map[]
    ensures Step(config, t, Take(0, 1)) == t.(taken := map[0 := Taken(1, t.jobs[1])])
  {
  }

  lemma InsertedSecond(rows: map<string, Owner>, codes: seq<string>)
    requires |codes| == 2 && codes[0] in rows && codes[1] !in rows
    ensures Inserted(rows, codes) == [codes[1]]
  {
    assert codes[..1] == [codes[0]] && codes[..1][..0] == [];
  }

  // A third job of any other series, behind the blocked one.
  function ThirdJob(gtin: string): seq<Command> {
    [Create(2, Sgtin, gtin, "", Random, 1), Approve(2)]
  }

  lemma ThirdStep(config: Config, t: Tenant, gtin: string)
    requires t.jobs.Keys == {0, 1} && t.taken == map[]
    ensures var u := Step(config, Step(config, t, ThirdJob(gtin)[0]), Approve(2));
      && 2 in u.jobs && u.taken == map[]
      && u.jobs[2] == Job(Sgtin, gtin, "", Random, 1, 0, Queued, None, [])
  {
  }

  // With a single worker it is never taken, in any run in which nobody cancels
  // the blocked job.
  lemma ThirdJobStarves(config: Config, gtin: string, lot: string, further: seq<Command>)
    requires IsValidGtin(gtin) && (lot == "" || IsValidGs1X(lot, 20))
    requires forall i :: 0 <= i < |further| ==> Keeps(further[i], {0}, {1})
    ensures var t := Run(config, EMPTY, Requests(gtin, lot) + FirstWorker() + ThirdJob(gtin));
      Fit(t, 2) && !Locked(Run(config, t, further), 2)
  {
    hide Inv, Run, Step, IsValidGtin, IsValidGs1X, CodeAt, SameSeries, Keeps;
    var t, code := AfterFirst(config, gtin, lot);
    var c := ThirdJob(gtin);
    var created := Step(config, t, c[0]);
    var u := Step(config, created, c[1]);
    assert c == [c[0]] + [c[1]];
    RunJoins(config, EMPTY, Requests(gtin, lot) + FirstWorker(), c);
    RunJoins(config, t, [c[0]], [c[1]]);
    RunOne(config, t, c[0]);
    RunOne(config, created, c[1]);
    ThirdStep(config, t, gtin);
    assert Stuck(config, t, 1) by { assert Exists(config, t, 1, t.jobs[1], 0); }
    StaysStuck(config, t, c[0], 1);
    StepKeeps(config, t, c[0]);
    StaysStuck(config, created, c[1], 1);
    StepKeeps(config, created, c[1]);
    Starved(config, u, further, {0}, {1}, 2);
  }

  // All this can be ordered: with this GTIN and no batch, for instance.
  lemma SampleRun(config: Config, further: seq<Command>)
    requires forall i :: 0 <= i < |further| ==> Keeps(further[i], {0}, {1})
    ensures var t := Run(config, EMPTY, Requests("12345670", "") + FirstWorker() + ThirdJob("12345670"));
      Fit(t, 2) && !Locked(Run(config, t, further), 2)
  {
    hide Run, Locked, IsValidGtin, Keeps;
    SampleGtin();
    ThirdJobStarves(config, "12345670", "", further);
  }

  lemma OneMoreDigit(data: string, c: char, triple: bool)
    requires AllDigits(data) && IsDigit(c)
    ensures AllDigits(data + [c])
    ensures Sum(data + [c], triple) == Sum(data, !triple) + if triple then 3 * DigitOf(c) else DigitOf(c)
  {
    assert (data + [c])[..|data|] == data;
  }

  lemma SampleGtin()
    ensures IsValidGtin("12345670")
  {
    hide Sum, IsValidGs1Mod10;
    SumOfNothing();
    OneMoreDigit("", '1', true);
    OneMoreDigit("" + ['1'], '2', false);
    OneMoreDigit("" + ['1'] + ['2'], '3', true);
    OneMoreDigit("" + ['1'] + ['2'] + ['3'], '4', false);
    OneMoreDigit("" + ['1'] + ['2'] + ['3'] + ['4'], '5', true);
    OneMoreDigit("" + ['1'] + ['2'] + ['3'] + ['4'] + ['5'], '6', false);
    OneMoreDigit("" + ['1'] + ['2'] + ['3'] + ['4'] + ['5'] + ['6'], '7', true);
    OneMoreDigit("" + ['1'] + ['2'] + ['3'] + ['4'] + ['5'] + ['6'] + ['7'], '0', false);
    assert "12345670" == "" + ['1'] + ['2'] + ['3'] + ['4'] + ['5'] + ['6'] + ['7'] + ['0'];
    ValidIsBalanced("12345670", GTIN_LENGTHS);
  }

  lemma SumOfNothing()
    ensures Sum("", false) == 0
  {
  }
}
