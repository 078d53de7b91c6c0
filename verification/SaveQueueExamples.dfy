// Runs of a new page: a clear that a failing write undoes, and a conflict that
// is forgotten because the page is closed inside its callbacks.
module SaveQueueExamples {
  import opened Wrappers
  import opened SaveQueue
  import opened SaveQueueHistory

  function Page(config: Config): Queue {
    Opened(config, None, true, 0.5)
  }

  // An edit whose write is under way.
  function Edited(): seq<Event> {
    [MarkDirty(0.5), Fire]
  }

  lemma {:induction false} RunJoins(config: Config, q: Queue, a: seq<Event>, b: seq<Event>)
    ensures Run(config, q, a + b) == Run(config, Run(config, q, a), b)
    decreases |b|
  {
    hide Step;
    if b == [] {
      assert a + b == a;
    } else {
      assert (a + b)[..|a + b| - 1] == a + b[..|b| - 1];
      RunJoins(config, q, a, b[..|b| - 1]);
    }
  }

  lemma RunOne(config: Config, q: Queue, e: Event)
    ensures Run(config, q, [e]) == Step(config, q, e)
  {
    hide Step;
    assert [e][..0] == [];
  }

  lemma EditedIsPending(config: Config)
    ensures var q := Run(config, Page(config), Edited());
      PendingWrite(q) && q.online && q.stored == Some(Snapshot(1, true, false, 0, 1))
  {
    hide Run, Delay;
    assert Edited() == [MarkDirty(0.5)] + [Fire];
    RunJoins(config, Page(config), [MarkDirty(0.5)], [Fire]);
    RunOne(config, Page(config), MarkDirty(0.5));
    RunOne(config, Step(config, Page(config), MarkDirty(0.5)), Fire);
  }

  // Cleared while it is written, written in vain, and to be written again.
  lemma ClearIsUndone(config: Config)
    requires ConfigOk(config)
    ensures var q := Run(config, Page(config), Edited() + [Clear, WriteFailed(0, false), Finish(0, 0.5)]);
      q.dirty && q.timer.Some?
  {
    hide Run, Step, Inv;
    var q := Run(config, Page(config), Edited());
    var rest := [Clear, WriteFailed(0, false), Finish(0, 0.5)];
    EditedIsPending(config);
    RunKeeps(config, None, true, 0.5, Edited());
    ClearCanBeUndone(config, q, 0.5);
    RunJoins(config, Page(config), Edited(), rest);
    assert rest == [Clear] + ([WriteFailed(0, false)] + [Finish(0, 0.5)]);
    RunJoins(config, q, [Clear], [WriteFailed(0, false)] + [Finish(0, 0.5)]);
    RunJoins(config, Step(config, q, Clear), [WriteFailed(0, false)], [Finish(0, 0.5)]);
    RunOne(config, q, Clear);
    RunOne(config, Run(config, Step(config, q, Clear), [WriteFailed(0, false)]), Finish(0, 0.5));
  }

  // The write meets a conflict, the page is opened again before the end of the
  // failed write has saved it, and writes although nobody has resolved it.
  lemma ConflictIsForgotten(config: Config)
    requires ConfigOk(config)
    ensures PendingWrite(Run(config, Page(config), Edited() + [WriteFailed(0, true), Restart(true, 0.5), Fire]))
  {
    hide Run, Inv, Delay;
    var q := Run(config, Page(config), Edited());
    EditedIsPending(config);
    RunKeeps(config, None, true, 0.5, Edited());
    var blocked := Step(config, q, WriteFailed(0, true));
    StepKeeps(config, q, WriteFailed(0, true));
    assert q.flights[0 := Rejected] == [Rejected];
    ForgottenConflictWrites(config, blocked, 0.5);
    var rest := [WriteFailed(0, true), Restart(true, 0.5), Fire];
    RunJoins(config, Page(config), Edited(), rest);
    assert rest == [WriteFailed(0, true)] + [Restart(true, 0.5), Fire];
    RunJoins(config, q, [WriteFailed(0, true)], [Restart(true, 0.5), Fire]);
    RunOne(config, q, WriteFailed(0, true));
  }
}
