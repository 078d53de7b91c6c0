// What the save queue promises over whole histories: no edit is lost, one
// write at a time, and silence after a conflict.
module SaveQueueHistory {
  import opened Wrappers
  import opened SaveQueue

  /******* No lost update *******/

  // A queue with the times of the last edit, the last clear, the start of the
  // write in flight and the start of the last write that succeeded.
  datatype Trace = Trace(q: Queue, now: nat, lastEdit: nat, lastClear: nat, startedAt: nat, lastSaved: nat)

  predicate IsEdit(e: Event) {
    e.MarkDirty? || e.ClearConflict?
  }

  predicate Starts(config: Config, q: Queue, e: Event) {
    !e.Restart? && |Step(config, q, e).flights| > |q.flights|
  }

  function Next(config: Config, t: Trace, e: Event): Trace {
    var now := t.now + 1;
    Trace(Step(config, t.q, e), now,
          if IsEdit(e) then now else t.lastEdit,
          if e.Clear? then now else t.lastClear,
          if Starts(config, t.q, e) then now else t.startedAt,
          if e.WriteOk? && Enabled(t.q, e) then t.startedAt else t.lastSaved)
  }

  function History(config: Config, stored: Option<Snapshot>, online: bool, random: unit, events: seq<Event>): Trace
    decreases |events|
  {
    if events == [] then Trace(Opened(config, stored, online, random), 0, 0, 0, 0, 0)
    else Next(config, History(config, stored, online, random, events[..|events| - 1]), events[|events| - 1])
  }

  // Everything edited since the queue was opened has been written, or was
  // cleared on purpose, or is still marked.
  predicate Accounted(t: Trace, dirty: bool) {
    dirty || t.lastEdit == 0 || t.lastClear > t.lastEdit || t.lastSaved > t.lastEdit
  }

  predicate StoredDirty(stored: Option<Snapshot>) {
    stored.Some? && stored.value.schemaVersion == 1 && stored.value.dirty
  }

  predicate TraceInv(config: Config, t: Trace) {
    && Inv(config, t.q)
    && t.lastSaved <= t.startedAt <= t.now && t.lastEdit <= t.now && t.lastClear <= t.now
    && Accounted(t, t.q.dirty) && Accounted(t, StoredDirty(t.q.stored))
    && (t.q.running && t.q.flights[0].Writing? ==>
          && t.q.flights[0].generation <= t.q.generation
          && (t.q.flights[0].generation == t.q.generation ==> t.startedAt > t.lastEdit))
    && (t.q.blocked ==> t.q.flights == [] || t.q.flights == [Rejected])
  }

  lemma RestartKeeps(config: Config, t: Trace, online: bool, random: unit)
    requires ConfigOk(config) && TraceInv(config, t)
    ensures TraceInv(config, Next(config, t, Restart(online, random)))
  {
    StepKeeps(config, t.q, Restart(online, random));
    hide Inv, Delay;
  }

  // The end of a write, successful or not.
  lemma EndKeeps(config: Config, t: Trace, e: Event)
    requires ConfigOk(config) && TraceInv(config, t) && (e.WriteOk? || e.Finish?)
    ensures TraceInv(config, Next(config, t, e))
  {
    StepKeeps(config, t.q, e);
    hide DelayInRange, Delay, Agrees;
  }

  lemma NextKeeps(config: Config, t: Trace, e: Event)
    requires ConfigOk(config) && TraceInv(config, t)
    ensures TraceInv(config, Next(config, t, e))
  {
    if e.Restart? {
      RestartKeeps(config, t, e.online, e.random);
    } else if e.WriteOk? || e.Finish? {
      EndKeeps(config, t, e);
    } else {
      StepKeeps(config, t.q, e);
      hide DelayInRange, Delay, Agrees, Opened;
    }
  }

  lemma StartingTrace(config: Config, stored: Option<Snapshot>, online: bool, random: unit)
    requires ConfigOk(config)
    ensures TraceInv(config, Trace(Opened(config, stored, online, random), 0, 0, 0, 0, 0))
  {
    hide DelayInRange, Delay;
    OpenedKeeps(config, stored, online, random);
  }

  lemma {:induction false} HistoryKeeps(config: Config, stored: Option<Snapshot>, online: bool, random: unit, events: seq<Event>)
    requires ConfigOk(config)
    ensures TraceInv(config, History(config, stored, online, random, events))
    decreases |events|
  {
    hide TraceInv, Next;
    if events == [] {
      StartingTrace(config, stored, online, random);
    } else {
      HistoryKeeps(config, stored, online, random, events[..|events| - 1]);
      NextKeeps(config, History(config, stored, online, random, events[..|events| - 1]), events[|events| - 1]);
    }
  }

  // Whatever the interleaving: a clean queue has written everything since the
  // last edit, unless it was cleared after it.
  lemma NoLostUpdate(config: Config, stored: Option<Snapshot>, online: bool, random: unit, events: seq<Event>)
    requires ConfigOk(config)
    ensures var t := History(config, stored, online, random, events);
      !t.q.dirty && t.lastEdit > 0 && t.lastClear < t.lastEdit ==> t.lastSaved > t.lastEdit
  {
    hide History, Inv;
    HistoryKeeps(config, stored, online, random, events);
  }

  lemma AtMostOneWrite(config: Config, stored: Option<Snapshot>, online: bool, random: unit, events: seq<Event>)
    requires ConfigOk(config)
    ensures |Run(config, Opened(config, stored, online, random), events).flights| <= 1
  {
    hide Run;
    RunKeeps(config, stored, online, random, events);
  }

  /******* Never stalls *******/

  // When the timer runs out the write starts at once, with the present edits.
  lemma TimerStartsWrite(config: Config, q: Queue)
    requires Inv(config, q) && q.timer.Some?
    ensures var q' := Step(config, q, Fire); q'.running && q'.flights == [Writing(q.generation)] && q'.timer.None?
  {
    hide DelayInRange, Agrees;
  }

  // Outside the callbacks of a failed write a restart goes on where it was.
  lemma RestartContinues(config: Config, q: Queue, online: bool, random: unit)
    requires Inv(config, q) && !Settling(q)
    ensures var q' := Step(config, q, Restart(online, random));
      && q'.dirty == q.dirty && q'.blocked == q.blocked && q'.retryAttempt == q.retryAttempt
      && (q'.timer.Some? <==> q.dirty && !q.blocked && online)
  {
    hide DelayInRange, Delay;
  }

  /******* After a conflict *******/

  predicate Resolves(e: Event) {
    e.Retry? || e.ClearConflict? || e.Clear?
  }

  predicate Silent(config: Config, q: Queue) {
    Inv(config, q) && q.blocked && (q.flights == [] || q.flights == [Rejected])
  }

  // What a page that is opened now will know of the conflict.
  predicate StoredBlocked(stored: Option<Snapshot>) {
    stored.Some? && stored.value.schemaVersion == 1 && stored.value.blocked
  }

  // One event keeps the silence, unless it is a restart from a snapshot that
  // was saved before the conflict.
  lemma SilentStep(config: Config, q: Queue, e: Event)
    requires ConfigOk(config) && Silent(config, q) && !Resolves(e)
    ensures Silent(config, Step(config, q, e)) <==> !(e.Restart? && !StoredBlocked(q.stored))
    ensures !Starts(config, q, e)
    ensures StoredBlocked(q.stored) ==> StoredBlocked(Step(config, q, e).stored)
    ensures e.Finish? && Enabled(q, e) ==> StoredBlocked(Step(config, q, e).stored)
  {
    StepKeeps(config, q, e);
    hide DelayInRange, Delay;
  }

  // Once the failed write has ended, the snapshot has the conflict.
  lemma EndedIsStored(config: Config, q: Queue)
    requires Silent(config, q) && q.flights == []
    ensures StoredBlocked(q.stored)
  {
    hide DelayInRange;
  }

  predicate SilentThroughout(config: Config, q: Queue, events: seq<Event>)
    decreases |events|
  {
    Silent(config, Run(config, q, events)) && (events == [] || SilentThroughout(config, q, events[..|events| - 1]))
  }

  predicate RestartsRemember(config: Config, q: Queue, events: seq<Event>)
    decreases |events|
  {
    events == [] ||
    (RestartsRemember(config, q, events[..|events| - 1])
     && (events[|events| - 1].Restart? ==> StoredBlocked(Run(config, q, events[..|events| - 1]).stored)))
  }

  lemma {:induction false} SilentIffRemembered(config: Config, q: Queue, events: seq<Event>)
    requires ConfigOk(config) && Silent(config, q)
    requires forall i :: 0 <= i < |events| ==> !Resolves(events[i])
    ensures SilentThroughout(config, q, events) <==> RestartsRemember(config, q, events)
    decreases |events|
  {
    hide Silent, Step, Starts, StoredBlocked;
    if events != [] {
      var before := events[..|events| - 1];
      SilentIffRemembered(config, q, before);
      if SilentThroughout(config, q, before) { SilentStep(config, Run(config, q, before), events[|events| - 1]); }
    }
  }

  // From the moment of the conflict on, its callbacks included: a run that
  // does not resolve it stays silent if and only if no restart in it finds a
  // snapshot from before the conflict.
  lemma ConflictSilences(config: Config, q: Queue, i: nat, events: seq<Event>)
    requires ConfigOk(config) && Inv(config, q) && Enabled(q, WriteFailed(i, true))
    requires forall j :: 0 <= j < |events| ==> !Resolves(events[j])
    ensures var q' := Step(config, q, WriteFailed(i, true));
      SilentThroughout(config, q', events) <==> RestartsRemember(config, q', events)
  {
    var q' := Step(config, q, WriteFailed(i, true));
    StepKeeps(config, q, WriteFailed(i, true));
    assert q.flights[i := Rejected] == [Rejected];
    hide Step, Inv;
    SilentIffRemembered(config, q', events);
  }

  lemma {:induction false} AlwaysRemembered(config: Config, q: Queue, events: seq<Event>)
    requires ConfigOk(config) && Silent(config, q) && StoredBlocked(q.stored)
    requires forall i :: 0 <= i < |events| ==> !Resolves(events[i])
    ensures RestartsRemember(config, q, events)
    ensures Silent(config, Run(config, q, events)) && StoredBlocked(Run(config, q, events).stored)
    decreases |events|
  {
    hide Silent, Step, Starts, StoredBlocked;
    if events != [] {
      AlwaysRemembered(config, q, events[..|events| - 1]);
      SilentStep(config, Run(config, q, events[..|events| - 1]), events[|events| - 1]);
    }
  }

  // A page that is opened again with such a snapshot has forgotten the
  // conflict: it writes the next edit, or at once what the snapshot has.
  lemma ForgottenConflictWrites(config: Config, q: Queue, random: unit)
    requires ConfigOk(config) && Silent(config, q) && !StoredBlocked(q.stored)
    ensures PendingWrite(Run(config, q, [Restart(true, random), MarkDirty(random), Fire]))
    ensures StoredDirty(q.stored) ==> PendingWrite(Run(config, q, [Restart(true, random), Fire]))
  {
    var anew := Step(config, q, Restart(true, random));
    assert [Restart(true, random)][..0] == [];
    assert [Restart(true, random), Fire][..1] == [Restart(true, random)];
    assert [Restart(true, random), MarkDirty(random), Fire][..2] == [Restart(true, random), MarkDirty(random)];
    assert [Restart(true, random), MarkDirty(random)][..1] == [Restart(true, random)];
    hide Delay, DelayInRange, Agrees;
    assert Run(config, q, [Restart(true, random)]) == anew;
    assert Run(config, q, [Restart(true, random), MarkDirty(random)]) == Step(config, anew, MarkDirty(random));
  }

  // The exact condition for a blocked queue to write nothing in any run that
  // does not resolve the conflict, restarts included.
  lemma SilentUntilResolved(config: Config, q: Queue)
    requires ConfigOk(config) && Silent(config, q)
    ensures (forall events :: (forall i :: 0 <= i < |events| ==> !Resolves(events[i])) ==>
               !PendingWrite(Run(config, q, events)))
       <==> StoredBlocked(q.stored)
  {
    hide Run, Step, Inv, StoredBlocked;
    if StoredBlocked(q.stored) {
      forall events | forall i :: 0 <= i < |events| ==> !Resolves(events[i])
        ensures !PendingWrite(Run(config, q, events))
      {
        AlwaysRemembered(config, q, events);
      }
    } else {
      ForgottenConflictWrites(config, q, 0.0);
      var events: seq<Event> := [Restart(true, 0.0), MarkDirty(0.0), Fire];
      assert forall i :: 0 <= i < |events| ==> !Resolves(events[i]);
    }
  }

  /******* Clearing *******/

  // What makes a clean queue dirty: an edit, a write that fails after the queue
  // was cleared under it, or a restart from a snapshot that is still dirty.
  lemma DirtyAgain(config: Config, q: Queue, e: Event)
    requires Inv(config, q) && !q.dirty
    ensures Step(config, q, e).dirty <==>
      IsEdit(e) || (e.WriteFailed? && Enabled(q, e)) || (e.Restart? && StoredDirty(q.stored))
  {
    hide DelayInRange, Delay;
  }

  predicate PendingWrite(q: Queue) {
    |q.flights| == 1 && q.flights[0].Writing?
  }

  predicate Cleared(config: Config, q: Queue) {
    Inv(config, q) && !q.dirty && !StoredDirty(q.stored) && (q.flights == [] || q.flights == [Rejected])
  }

  lemma ClearedStep(config: Config, q: Queue, e: Event)
    requires ConfigOk(config) && Cleared(config, q) && !IsEdit(e)
    ensures Cleared(config, Step(config, q, e))
  {
    StepKeeps(config, q, e);
    hide DelayInRange, Delay, Agrees;
  }

  // With no write pending a clear is final until the next edit, from inside
  // the callbacks of a failed write too.
  lemma {:induction false} ClearStays(config: Config, q: Queue, events: seq<Event>)
    requires ConfigOk(config) && Inv(config, q) && !PendingWrite(q)
    requires forall i :: 0 <= i < |events| ==> !IsEdit(events[i])
    ensures Cleared(config, Run(config, Step(config, q, Clear), events))
    decreases |events|
  {
    if events == [] {
      StepKeeps(config, q, Clear);
    } else {
      hide Cleared, Step, Inv;
      ClearStays(config, q, events[..|events| - 1]);
      ClearedStep(config, Run(config, Step(config, q, Clear), events[..|events| - 1]), events[|events| - 1]);
    }
  }

  // With a write pending, its failure undoes the clear: the queue is dirty and
  // as soon as the write has ended the timer is armed again.
  lemma ClearCanBeUndone(config: Config, q: Queue, random: unit)
    requires ConfigOk(config) && Inv(config, q) && PendingWrite(q)
    ensures var failed := Run(config, Step(config, q, Clear), [WriteFailed(0, false)]);
      && failed.dirty
      && Enabled(failed, Finish(0, random)) && Step(config, failed, Finish(0, random)).dirty
      && (Step(config, failed, Finish(0, random)).timer.Some? <==> q.online)
  {
    hide Delay, DelayInRange, Agrees;
    assert [WriteFailed(0, false)][..0] == [];
    assert q.flights == [q.flights[0]];
  }

  // The exact condition for a clear to be final.
  lemma ClearIsFinal(config: Config, q: Queue)
    requires ConfigOk(config) && Inv(config, q)
    ensures (forall events :: (forall i :: 0 <= i < |events| ==> !IsEdit(events[i])) ==>
                !Run(config, Step(config, q, Clear), events).dirty)
       <==> !PendingWrite(q)
  {
    hide Run, Step, Inv;
    if PendingWrite(q) {
      ClearCanBeUndone(config, q, 0.0);
      assert !IsEdit([WriteFailed(0, false)][0]);
    } else {
      forall events | forall i :: 0 <= i < |events| ==> !IsEdit(events[i])
        ensures !Run(config, Step(config, q, Clear), events).dirty
      {
        ClearStays(config, q, events);
      }
    }
  }
}
